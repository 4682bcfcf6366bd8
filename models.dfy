/** The inbound translation request and the validation applied to it at
    the service boundary. */
module Models {
  import opened Wrappers

  /** Whether the message is being received or sent. */
  datatype Direction = Incoming | Outgoing

  /** Who wrote a context message. */
  datatype Role = Me | Them

  datatype ContextMessage = ContextMessage(role: Role, text: string)

  datatype TranslateRequest = TranslateRequest(
    text: string,
    direction: Direction,
    chatId: Option<string>,
    context: seq<ContextMessage>)

  const MaxContextItems: nat := 100

  const ContextTooLong := "context may contain at most 100 items"

  function DirectionName(d: Direction): string {
    match d
    case Incoming => "incoming"
    case Outgoing => "outgoing"
  }

  /** The literal type of the `direction` field: exactly "incoming" or "outgoing". */
  function ParseDirection(s: string): (r: Option<Direction>)
    ensures r.Some? ==> DirectionName(r.value) == s
  {
    if s == "incoming" then Some(Incoming)
    else if s == "outgoing" then Some(Outgoing)
    else None
  }

  /** Every direction's name parses back to it. */
  lemma DirectionRoundTrip(d: Direction)
    ensures ParseDirection(DirectionName(d)) == Some(d)
  {
  }

  function RoleName(r: Role): string {
    match r
    case Me => "me"
    case Them => "them"
  }

  /** The literal type of a context entry's `role`: exactly "me" or "them". */
  function ParseRole(s: string): (r: Option<Role>)
    ensures r.Some? ==> RoleName(r.value) == s
  {
    if s == "me" then Some(Me)
    else if s == "them" then Some(Them)
    else None
  }

  /** Every role's name parses back to it. */
  lemma RoleRoundTrip(role: Role)
    ensures ParseRole(RoleName(role)) == Some(role)
  {
  }

  /** The field validator on `context`: more than 100 entries is refused,
      anything else passes through unchanged. */
  function ValidateContextSize(value: seq<ContextMessage>): (r: Result<seq<ContextMessage>, string>)
    ensures r.Ok? <==> |value| <= MaxContextItems
    ensures r.Ok? ==> r.value == value
    ensures r.Err? ==> r.error == ContextTooLong
  {
    if |value| > MaxContextItems then Err(ContextTooLong) else Ok(value)
  }

  /** A request built with only the required fields: `chat_id` and
      `context` take their defaults. */
  function NewRequest(text: string, direction: Direction): (r: TranslateRequest)
    ensures r.text == text && r.direction == direction
    ensures r.chatId == None && r.context == []
  {
    TranslateRequest(text, direction, None, [])
  }

  /** Decodes raw context entries (role, text), failing on the first role
      that is neither "me" nor "them". */
  function ParseContext(raw: seq<(string, string)>): (r: Option<seq<ContextMessage>>)
    ensures r.Some? <==> forall i :: 0 <= i < |raw| ==> ParseRole(raw[i].0).Some?
    ensures r.Some? ==> |r.value| == |raw|
    ensures r.Some? ==>
      forall i :: 0 <= i < |raw| ==> r.value[i] == ContextMessage(ParseRole(raw[i].0).value, raw[i].1)
  {
    if raw == [] then Some([])
    else
      match (ParseRole(raw[0].0), ParseContext(raw[1..]))
      case (Some(role), Some(rest)) => Some([ContextMessage(role, raw[0].1)] + rest)
      case (None, _) => None
      case (_, None) => None
  }

  /** Why a request body is refused. */
  datatype RequestError = InvalidDirection | InvalidRole | InvalidContext(message: string)

  /** The whole model validation of a request body: both literal types and
      the context bound. */
  function ParseRequest(text: string, direction: string, chatId: Option<string>, context: seq<(string, string)>)
    : (r: Result<TranslateRequest, RequestError>)
    ensures r.Ok? <==>
      ParseDirection(direction).Some? && ParseContext(context).Some? && |context| <= MaxContextItems
    ensures r.Ok? ==> r.value.text == text && r.value.chatId == chatId
    ensures r.Ok? ==> DirectionName(r.value.direction) == direction && |r.value.context| == |context|
    ensures r.Ok? ==> ParseDirection(direction) == Some(r.value.direction) && ParseContext(context) == Some(r.value.context)
    ensures ParseDirection(direction).None? ==> r == Err(InvalidDirection)
    ensures ParseDirection(direction).Some? && ParseContext(context).None? ==> r == Err(InvalidRole)
    ensures ParseDirection(direction).Some? && ParseContext(context).Some? && |context| > MaxContextItems ==>
      r == Err(InvalidContext(ContextTooLong))
  {
    match (ParseDirection(direction), ParseContext(context))
    case (None, _) => Err(InvalidDirection)
    case (_, None) => Err(InvalidRole)
    case (Some(d), Some(items)) =>
      match ValidateContextSize(items)
      case Err(msg) => Err(InvalidContext(msg))
      case Ok(items) => Ok(TranslateRequest(text, d, chatId, items))
  }
}
