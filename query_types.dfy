/**
 * The data model of the query, search and message-flag endpoints:
 * caller-facing options, the wire envelope, the decoded responses and
 * the request handed to the transport.
 */
module QueryTypes {
  import opened Wrappers

  /** A loosely typed filter value; the backend defines its meaning. */
  datatype Value =
    | Null
    | Bool(b: bool)
    | Number(n: int)
    | Str(s: string)
    | List(items: seq<Value>)
    | Object(fields: map<string, Value>)

  /** A filter mapping, key to backend-defined value. */
  type Filter = map<string, Value>

  /** One sort directive; the first directive of a list is the primary key. */
  datatype SortOption = SortOption(field: string, direction: int)

  /** Caller-supplied criteria of a users, channels or flags query. */
  datatype QueryOption = QueryOption(
    filter: Filter,
    sort: seq<SortOption>,
    userID: string,
    limit: int,
    offset: int,
    messageLimit: Option<int>,
    memberLimit: Option<int>)

  /** The envelope sent for a users, channels or flags query. */
  datatype QueryRequest = QueryRequest(
    watch: bool,
    state: bool,
    presence: bool,
    userID: string,
    limit: int,
    offset: int,
    memberLimit: Option<int>,
    messageLimit: Option<int>,
    filterConditions: Filter,
    sort: seq<SortOption>)

  /** A message search: free text or message filters, with paging and sort. */
  datatype SearchRequest = SearchRequest(
    query: string,
    filters: Filter,
    messageFilters: Filter,
    limit: int,
    offset: int,
    next: string,
    sort: seq<SortOption>)

  // The response entities below are declared outside query.go; the model
  // keeps only an identifier for each.
  datatype User = User(id: string)
  datatype Message = Message(id: string)
  datatype ChannelMember = ChannelMember(userID: string)
  datatype ChannelRead = ChannelRead(userID: string)
  datatype MessageFlag = MessageFlag(messageID: string, userID: string)

  /** A channel object; query shaping writes its nested lists in place. */
  class Channel {
    var id: string
    var members: seq<ChannelMember>
    var messages: seq<Message>
    var read: seq<ChannelRead>
  }

  /** One decoded entry of a channels response. */
  datatype ChannelData = ChannelData(
    channel: Channel,
    messages: seq<Message>,
    read: seq<ChannelRead>,
    members: seq<ChannelMember>)

  datatype UsersResponse = UsersResponse(users: seq<User>)
  datatype ChannelsResponse = ChannelsResponse(channels: seq<ChannelData>)
  datatype MessageFlagsResponse = MessageFlagsResponse(flags: seq<MessageFlag>)
  datatype SearchMessageResponse = SearchMessageResponse(message: Message)
  datatype SearchResponse = SearchResponse(
    results: seq<SearchMessageResponse>,
    next: string,
    previous: string)

  /** The two local search rules a request can break. */
  datatype SearchViolation = OffsetWithNextOrSort | QueryWithMessageFilters {
    /** The text of the error the client returns. */
    function Text(): string {
      match this
      case OffsetWithNextOrSort => "cannot use Offset with Next or Sort parameters"
      case QueryWithMessageFilters => "can only specify Query or MessageFilters, not both"
    }
  }

  /** An error surfaced to the caller: local validation or the transport's own. */
  datatype Error = Invalid(violation: SearchViolation) | TransportError(reason: string)

  datatype HttpMethod = Get | Post

  /** The value the transport serialises to JSON. */
  datatype Payload = QueryPayload(query: QueryRequest) | SearchPayload(search: SearchRequest)

  /**
   * A call to the transport: method, relative path, the value carried as
   * the single `payload` query-string parameter, and the value carried as
   * the request body.
   */
  datatype Request = Request(
    verb: HttpMethod,
    path: string,
    params: Option<Payload>,
    body: Option<Payload>)

  /** What the transport leaves in the destination, and the error it returns. */
  datatype Reply<T> = Reply(decoded: T, err: Option<Error>)
}
