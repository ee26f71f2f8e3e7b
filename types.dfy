/** The record shapes of the application (types.ts). */
module Types {

  datatype Option<+T> = None | Some(value: T)

  /** Lifecycle of an uploaded document. */
  datatype DocStatus = Processing | Ready | Error

  /** An uploaded document; `mimeType` is the record's `type` field. */
  datatype Document = Document(
    id: string,
    name: string,
    mimeType: string,
    content: string,
    size: int,
    uploadDate: string,
    status: DocStatus)

  datatype Role = User | Model

  /** A chat message; `isStreaming` is an optional field (None when absent). */
  datatype Message = Message(
    id: string,
    role: Role,
    text: string,
    timestamp: int,
    isStreaming: Option<bool>)

  /** Token counters for three time windows and the monthly ceiling. */
  datatype UsageStats = UsageStats(daily: int, monthly: int, yearly: int, budget: int)

  datatype Theme = Light | Dark | System

  datatype UserProfile = UserProfile(name: string, email: string, avatarUrl: string, theme: Theme)

  /** A `Partial<UserProfile>`: a field is present exactly when it is `Some`. */
  datatype ProfilePatch = ProfilePatch(
    name: Option<string>,
    email: Option<string>,
    avatarUrl: Option<string>,
    theme: Option<Theme>)
}
