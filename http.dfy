/** The replies the Flask routes send: a status code and a JSON body. */
module Http {
  import opened Json

  /** `create_access_token(identity=user_id)`: a token that names the user it was issued for. */
  datatype AccessToken = AccessToken(identity: int)

  datatype ReplyBody =
    | ErrorBody(error: string)            // {"error": ...}
    | MessageBody(message: string)        // {"message": ...}
    | RecordBody(record: Body)            // a row serialised by one of the *_to_dict helpers
    | LoginBody(token: AccessToken, userId: int, role: string)
    | InternalError                       // an exception the route does not catch

  datatype Reply = Reply(status: int, body: ReplyBody)

  function BadRequest(message: string): Reply
  {
    Reply(400, ErrorBody(message))
  }

  const NotFound: Reply := Reply(404, ErrorBody("Not found"))

  /** What Flask sends when a route raises: status 500, and the request changes nothing. */
  const ServerError: Reply := Reply(500, InternalError)

  const Deleted: Reply := Reply(200, MessageBody("Deleted"))
}
