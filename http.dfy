/**
 * The parts of an Express request the guards read and write: the
 * Authorization header, the route's `:id`, and `request.user`, which a guard
 * sets to the verified token payload.
 */
module Http {
  import opened Base
  import opened Jwt

  class Request {
    const authorization: Option<string>
    const paramsId: Option<string>
    var user: Option<Payload>

    constructor(authorization: Option<string>, paramsId: Option<string>)
      ensures this.authorization == authorization && this.paramsId == paramsId && user == None
    {
      this.authorization := authorization;
      this.paramsId := paramsId;
      user := None;
    }
  }
}
