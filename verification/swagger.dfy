/** The output document: the parts of a Swagger 2.0 document the converter produces. */
module Swagger {
  import opened Wrappers
  import opened OrderedMaps

  /** A primitive schema: `{ type, format? }`. */
  datatype Property = Property(dataType: string, format: Option<string>)

  datatype Schema =
    | Primitive(property: Property)          // { type, format? }
    | Object(properties: OrderedMap<Schema>) // { type: 'object', properties }
    | ArrayOf(items: Schema)                 // { type: 'array', items }
    | Ref(target: string)                    // { $ref }

  datatype Response = Response(description: string, schema: Option<Schema>)

  datatype Location = InPath | InBody

  /** A parameter object; path parameters carry no schema, body parameters do. */
  datatype Parameter = Parameter(name: string, location: Location, required: bool, schema: Option<Schema>)

  /** An operation; `parameters` is None when the field is absent from the operation object. */
  datatype Operation = Operation(
    operationId: string,
    parameters: Option<seq<Parameter>>,
    responses: OrderedMap<Response>)

  datatype PathItem = PathItem(
    get: Option<Operation>,
    post: Option<Operation>,
    delete: Option<Operation>,
    patch: Option<Operation>)

  datatype Info = Info(title: string, version: string)

  /** The Swagger Object; an absent `host` or `basePath` is left out when the document is written. */
  datatype Document = Document(
    swagger: string,
    host: Option<string>,
    produces: seq<string>,
    basePath: Option<string>,
    info: Info,
    paths: OrderedMap<PathItem>,
    definitions: OrderedMap<Schema>)
}
