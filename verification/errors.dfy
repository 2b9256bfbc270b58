/** The errors the server code throws, one constructor per distinct `throw`. */
module Errors {

  datatype Error =
    | TypeError             // a property read on null/undefined, or a call of a missing method
    | DatabaseNotAvailable  // a write helper of server/db.ts with no store connection
    | WriteRejected         // the store refused a write (driver or constraint failure)
    | LlmFailed             // the generative backend call threw
    | ProjectNotFound
    | Unauthorized
    | InvalidProjectId
    | OpenIdRequired

  /** The message text each error carries in the server code, where it has a fixed one. */
  function Message(e: Error): string {
    match e
    case TypeError => "TypeError"
    case DatabaseNotAvailable => "Database not available"
    case WriteRejected => "write rejected"
    case LlmFailed => "LLM invocation failed"
    case ProjectNotFound => "Project not found"
    case Unauthorized => "Unauthorized"
    case InvalidProjectId => "Failed to create project: invalid project ID"
    case OpenIdRequired => "User openId is required for upsert"
  }
}
