/** The declared model metadata that the schema inspector walks: the shape of
    bun's `schema.Table`, `schema.Field` and `schema.Relation` as far as
    `SchemaInspector.Inspect` reads them. The registry that produces them
    (`schema.Tables.All()`) is an input sequence here. */
module ModelSchema {

  /** bun's relation kinds, in the order the `schema` package declares them. */
  datatype RelationType =
    | InvalidRelation
    | HasOneRelation
    | BelongsToRelation
    | HasManyRelation
    | ManyToManyRelation

  /** A declared field: its column name, the SQL type used in CREATE TABLE, its
      default expression and its flags. */
  datatype Field = Field(
    name: string,
    createTableSQLType: string,
    sqlDefault: string,
    isPK: bool,
    notNull: bool,
    autoIncrement: bool,
    identity: bool)

  /** The target of a relation, identified by schema and table name. */
  datatype TableName = TableName(schema: string, name: string)

  /** A declared relation: local columns `baseFields` refer to `joinFields` of
      `joinTable`, position by position. */
  datatype Relation = Relation(
    kind: RelationType,
    baseFields: seq<Field>,
    joinTable: TableName,
    joinFields: seq<Field>)

  /** A declared table; `zeroIface` is the opaque zero value of the model type. */
  datatype TableMeta<M> = TableMeta(
    schema: string,
    name: string,
    zeroIface: M,
    fields: seq<Field>,
    relations: seq<Relation>)
}
