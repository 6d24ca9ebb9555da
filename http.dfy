/**
 * The request a middleware chain works on, the parsed query-string values it
 * carries, and the two ways a middleware hands over: `next()` or `next(err)`.
 */
module Http {
  import opened Js
  import opened AppErrors
  import opened UserModel

  /** A value of the parsed query string: a string, a repeated parameter
      (`a=1&a=2`) or a bracketed object (`price[gte]=5`), whose fields keep
      their order. */
  datatype QueryValue = QStr(s: string) | QList(items: seq<QueryValue>) | QObject(fields: seq<(string, QueryValue)>)

  /** A value, or the error a step threw. */
  datatype Result<T> = Ok(value: T) | Err(err: ErrorValue)

  /** `next()` or `next(err)`; a thrown error also ends as `next(err)`. */
  datatype Next = Continue | Halt(err: ErrorValue)

  class Request {
    var query: map<string, QueryValue>
    var cookies: map<string, string>
    var params: map<string, string>
    var user: Option<User>

    constructor (query: map<string, QueryValue>, cookies: map<string, string>, params: map<string, string>)
      ensures this.query == query && this.cookies == cookies && this.params == params && user.None?
    {
      this.query := query;
      this.cookies := cookies;
      this.params := params;
      user := None;
    }
  }
}
