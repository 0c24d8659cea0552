/** The slice of the external GraphQL type library the builders construct:
    type terms built by the library's constructors, field and argument
    declarations, and the field configuration a builder returns. The
    constructors are uninterpreted: a type term is the constructor applied to
    its arguments, and two terms are the same type when they are equal. */
module GraphQL {

  datatype Option<T> = None | Some(value: T)

  /** A GraphQL type term. `Scalar` stands for the library's scalar and enum
      types (`GraphQLString`, `GraphQLID`, ...); `List` and `NonNull` are the
      wrapping types; the object and input-object types carry their field map
      as it is once the library has forced the field thunk. */
  datatype GType =
    | Scalar(name: string)
    | List(ofType: GType)
    | NonNull(ofType: GType)
    | ObjectType(name: string, fields: map<string, FieldDecl>)
    | InputObjectType(name: string, fields: map<string, FieldDecl>)

  /** A field or argument declaration `{type, description}`. */
  datatype FieldDecl = FieldDecl(typ: GType, description: Option<string>)

  type FieldMap = map<string, FieldDecl>

  /** The built-in `GraphQLString` scalar. */
  const GraphQLString: GType := Scalar("String")

  /** A field configuration `{type, args, description}` as a builder returns
      it; its `resolve` closure is modelled by a separate resolver member. */
  datatype FieldConfig = FieldConfig(typ: GType, args: FieldMap, description: Option<string>)

  /** The engine's resolve-info record; the builders only forward it. */
  datatype ResolveInfo = ResolveInfo(fieldName: string)
}
