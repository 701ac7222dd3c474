/** What an Express handler writes through `res`: a status code and a body. */
module Http {
  import opened Json

  datatype Body =
    | JsonBody(value: Value)   // res.json(value)
    | NoBody                   // res.sendStatus(code)

  datatype Response = Response(status: int, body: Body)
}
