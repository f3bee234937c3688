/** What the two command handlers have in common: the kind of content asked
    for and the JSON values a metadata provider answers with. */
module Media {

  /** `/movie` asks for a film, `/series` for one episode of a TV series. */
  datatype Kind = Movie | Series

  /** A JSON value as `response.json()` decodes it. Numbers keep their literal
      text (TMDb's `vote_average` is a float; it is shown, never computed with). */
  datatype Value =
    | Str(text: string)
    | Number(literal: string)
    | Bool(b: bool)
    | Null
    | Array(items: seq<Value>)
    | Object(fields: map<string, Value>)

  /** A decoded JSON object: the `dict` the fetch functions return. */
  type Json = map<string, Value>
}
