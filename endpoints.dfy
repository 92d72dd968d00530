/**
 * The transport calls the query endpoints make, and the users and
 * message-flags queries, whose results are what the transport decoded.
 * The transport is a parameter `makeRequest`: given a call it yields the
 * decoded destination and the error it returns.
 */
module Endpoints {
  import opened Wrappers
  import opened QueryTypes
  import opened Envelope

  /** A read-style call: GET, the value in the `payload` parameter, no body. */
  predicate ReadStyle(r: Request) {
    r.verb == Get && r.params.Some? && r.body.None?
  }

  /** A write-style call: POST, the value as the body, no query parameters. */
  predicate WriteStyle(r: Request) {
    r.verb == Post && r.params.None? && r.body.Some?
  }

  function UsersCall(q: QueryOption, sorters: seq<SortOption>): Request {
    Request(Get, "users", Some(QueryPayload(UsersRequest(q, sorters))), None)
  }

  function ChannelsCall(q: QueryOption, sort: seq<SortOption>): Request {
    Request(Post, "channels", None, Some(QueryPayload(ChannelsRequest(q, sort))))
  }

  function MessageFlagsCall(q: QueryOption): Request {
    Request(Get, "moderation/flags/message", Some(QueryPayload(MessageFlagsRequest(q))), None)
  }

  function SearchCall(req: SearchRequest): Request {
    Request(Get, "search", Some(SearchPayload(req)), None)
  }

  /**
   * The users, flags and search calls are read-style, the channels call is
   * write-style, and the four go to four different paths.
   */
  lemma TransportConventions(q: QueryOption, sorters: seq<SortOption>, req: SearchRequest)
    ensures ReadStyle(UsersCall(q, sorters)) && UsersCall(q, sorters).path == "users"
    ensures WriteStyle(ChannelsCall(q, sorters)) && ChannelsCall(q, sorters).path == "channels"
    ensures ReadStyle(MessageFlagsCall(q)) && MessageFlagsCall(q).path == "moderation/flags/message"
    ensures ReadStyle(SearchCall(req)) && SearchCall(req).path == "search"
  {
  }

  /**
   * Lists users: sends the users envelope as the `payload` parameter of a
   * GET to "users" and hands back the decoded users together with the
   * transport's error, as they are.
   */
  function QueryUsers(q: QueryOption, sorters: seq<SortOption>,
                      makeRequest: Request -> Reply<UsersResponse>): (r: Reply<seq<User>>)
    ensures var reply := makeRequest(Request(Get, "users", Some(QueryPayload(UsersRequest(q, sorters))), None));
      r.decoded == reply.decoded.users && r.err == reply.err
  {
    var reply := makeRequest(UsersCall(q, sorters));
    Reply(reply.decoded.users, reply.err)
  }

  /**
   * Lists message flags: sends the flags envelope as the `payload`
   * parameter of a GET to "moderation/flags/message" and hands back the
   * decoded flags together with the transport's error, as they are.
   */
  function QueryMessageFlags(q: QueryOption,
                             makeRequest: Request -> Reply<MessageFlagsResponse>): (r: Reply<seq<MessageFlag>>)
    ensures var reply := makeRequest(Request(Get, "moderation/flags/message", Some(QueryPayload(MessageFlagsRequest(q))), None));
      r.decoded == reply.decoded.flags && r.err == reply.err
  {
    var reply := makeRequest(MessageFlagsCall(q));
    Reply(reply.decoded.flags, reply.err)
  }
}
