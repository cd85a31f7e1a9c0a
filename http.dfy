/** The parts of an Express request and response that the handlers touch,
    and what a handler does with a request. */
module Http {
  import opened Common
  import opened Records
  import opened AppErrors
  import opened ApiFeatures

  /** The `data` of a success envelope. */
  datatype Payload =
    | Listed(results: nat, docs: seq<Record>)   // `results` (or `length`) and the list
    | Single(doc: Option<Record>)                // one document, or null
    | Docs(docs: seq<Record>)                    // a list without a count
    | NoData                                     // `data: null`, or no data at all
    | Account(token: string, user: User)         // createSendToken's body
    | Note(message: string)                      // a bare `message`
    | Profile(account: Option<User>)             // one account, or null

  /** The `jwt` cookie createSendToken sets. */
  datatype Cookie = Cookie(name: string, value: string, expires: int, httpOnly: bool, secure: bool)

  /** What a handler does: it answers with a status code, calls `next()`,
      calls `next(err)` (which includes an exception `catchAsync` caught), or
      lets an exception escape a handler that `catchAsync` does not wrap. */
  datatype Outcome =
    | Sent(code: int, payload: Payload, cookie: Option<Cookie>)
    | Passed
    | Failed(err: Error)
    | Unhandled(err: Error)

  /** An Express request. `body` and `user` are the fields handlers assign;
      `authorization` is the Authorization header, `file` the name multer
      gave a single upload and `files` the paths of the `mediaContent`
      uploads. `req.cookie` (singular) is always undefined and so has no
      field. */
  class Request {
    var body: Doc
    var user: Option<User>
    const params: map<string, string>
    const query: seq<Entry>
    const originalUrl: string
    const authorization: Option<string>
    const file: Option<string>
    const files: Option<seq<string>>

    constructor (body: Doc, user: Option<User>, params: map<string, string>, query: seq<Entry>,
                 originalUrl: string, authorization: Option<string>, file: Option<string>,
                 files: Option<seq<string>>)
      ensures this.body == body && this.user == user && this.params == params
      ensures this.query == query && this.originalUrl == originalUrl
      ensures this.authorization == authorization && this.file == file && this.files == files
    {
      this.body := body;
      this.user := user;
      this.params := params;
      this.query := query;
      this.originalUrl := originalUrl;
      this.authorization := authorization;
      this.file := file;
      this.files := files;
    }

    /** An uploaded file's name becomes the body's `imageCover`. */
    method AttachCover()
      modifies this
      ensures body == if file.Some? then old(body)["imageCover" := Str(file.value)] else old(body)
      ensures user == old(user)
    {
      if file.Some? {
        body := body["imageCover" := Str(file.value)];
      }
    }

    /** `req.params[k]`, undefined when the route has no such parameter. */
    function Param(k: string): Option<string>
    {
      if k in params then Some(params[k]) else None
    }
  }
}
