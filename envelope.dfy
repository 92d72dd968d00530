/**
 * The wire envelopes built by the users, channels and message-flags
 * queries, and the JSON keys each envelope emits.
 */
module Envelope {
  import opened Wrappers
  import opened QueryTypes

  /** Reads an envelope back as the caller-facing option it carries. */
  function OptionOf(r: QueryRequest): QueryOption {
    QueryOption(
      filter := r.filterConditions,
      sort := r.sort,
      userID := r.userID,
      limit := r.limit,
      offset := r.offset,
      messageLimit := r.messageLimit,
      memberLimit := r.memberLimit)
  }

  /**
   * The users envelope: filter, limit and offset of the option, the sort
   * directives given separately; the option's own sort is not used.
   */
  function UsersRequest(q: QueryOption, sorters: seq<SortOption>): (r: QueryRequest)
    ensures OptionOf(r) == q.(sort := sorters, userID := "", messageLimit := None, memberLimit := None)
    ensures !r.watch && !r.state && !r.presence
  {
    QueryRequest(
      watch := false, state := false, presence := false,
      userID := "",
      limit := q.limit,
      offset := q.offset,
      memberLimit := None,
      messageLimit := None,
      filterConditions := q.filter,
      sort := sorters)
  }

  /**
   * The channels envelope: every field of the option passes through except
   * its sort, which is replaced by the sort directives given separately;
   * full channel state is requested.
   */
  function ChannelsRequest(q: QueryOption, sort: seq<SortOption>): (r: QueryRequest)
    ensures OptionOf(r) == q.(sort := sort)
    ensures r.state && !r.watch && !r.presence
  {
    QueryRequest(
      watch := false,
      state := true,
      presence := false,
      userID := q.userID,
      limit := q.limit,
      offset := q.offset,
      memberLimit := q.memberLimit,
      messageLimit := q.messageLimit,
      filterConditions := q.filter,
      sort := sort)
  }

  /** The message-flags envelope: filter, limit and offset, nothing else. */
  function MessageFlagsRequest(q: QueryOption): (r: QueryRequest)
    ensures OptionOf(r) == QueryOption(q.filter, [], "", q.limit, q.offset, None, None)
    ensures !r.watch && !r.state && !r.presence
  {
    QueryRequest(
      watch := false, state := false, presence := false,
      userID := "",
      limit := q.limit,
      offset := q.offset,
      memberLimit := None,
      messageLimit := None,
      filterConditions := q.filter,
      sort := [])
  }

  /** The JSON keys of the envelope, one per field. */
  datatype Key =
    | WatchKey | StateKey | PresenceKey | UserIDKey | LimitKey | OffsetKey
    | MemberLimitKey | MessageLimitKey | FilterKey | SortKey
  {
    /** The key's name on the wire. */
    function Name(): string {
      match this
      case WatchKey => "watch"
      case StateKey => "state"
      case PresenceKey => "presence"
      case UserIDKey => "user_id"
      case LimitKey => "limit"
      case OffsetKey => "offset"
      case MemberLimitKey => "member_limit"
      case MessageLimitKey => "message_limit"
      case FilterKey => "filter_conditions"
      case SortKey => "sort"
    }
  }

  /** No two fields of the envelope share a wire name. */
  lemma KeyNamesDistinct(a: Key, b: Key)
    requires a != b
    ensures a.Name() != b.Name()
  {
  }

  /** Every key of the envelope. */
  const AllKeys: set<Key> :=
    {WatchKey, StateKey, PresenceKey, UserIDKey, LimitKey, OffsetKey,
     MemberLimitKey, MessageLimitKey, FilterKey, SortKey}

  /**
   * Whether the encoder writes key `k` for envelope `r`: the three flags
   * always, every other field only when it is not empty, zero or nil.
   */
  predicate Emits(r: QueryRequest, k: Key) {
    match k
    case WatchKey => true
    case StateKey => true
    case PresenceKey => true
    case UserIDKey => r.userID != ""
    case LimitKey => r.limit != 0
    case OffsetKey => r.offset != 0
    case MemberLimitKey => r.memberLimit.Some?
    case MessageLimitKey => r.messageLimit.Some?
    case FilterKey => |r.filterConditions| != 0
    case SortKey => |r.sort| != 0
  }

  /** The keys the encoder writes for an envelope, the set `Emits` defines. */
  function EmittedKeys(r: QueryRequest): (keys: set<Key>)
    ensures {WatchKey, StateKey, PresenceKey} <= keys
    ensures UserIDKey in keys <==> r.userID != ""
    ensures LimitKey in keys <==> r.limit != 0
    ensures OffsetKey in keys <==> r.offset != 0
    ensures MemberLimitKey in keys <==> r.memberLimit.Some?
    ensures MessageLimitKey in keys <==> r.messageLimit.Some?
    ensures FilterKey in keys <==> |r.filterConditions| != 0
    ensures SortKey in keys <==> |r.sort| != 0
  {
    set k | k in AllKeys && Emits(r, k)
  }

  /**
   * A users envelope never carries the acting user or the per-channel
   * limits, whatever the option holds; its other keys follow the option.
   */
  lemma UsersEnvelopeKeys(q: QueryOption, sorters: seq<SortOption>)
    ensures var keys := EmittedKeys(UsersRequest(q, sorters));
      && UserIDKey !in keys && MemberLimitKey !in keys && MessageLimitKey !in keys
      && (FilterKey in keys <==> |q.filter| != 0)
      && (LimitKey in keys <==> q.limit != 0)
      && (OffsetKey in keys <==> q.offset != 0)
      && (SortKey in keys <==> |sorters| != 0)
  {
  }

  /** A channels envelope carries each pass-through key exactly when the option sets it. */
  lemma ChannelsEnvelopeKeys(q: QueryOption, sort: seq<SortOption>)
    ensures var keys := EmittedKeys(ChannelsRequest(q, sort));
      && (FilterKey in keys <==> |q.filter| != 0)
      && (UserIDKey in keys <==> q.userID != "")
      && (LimitKey in keys <==> q.limit != 0)
      && (OffsetKey in keys <==> q.offset != 0)
      && (MemberLimitKey in keys <==> q.memberLimit.Some?)
      && (MessageLimitKey in keys <==> q.messageLimit.Some?)
      && (SortKey in keys <==> |sort| != 0)
  {
  }

  /**
   * A message-flags envelope emits nothing beyond the flags, the filter and
   * the paging keys, and each of those three exactly when the option sets it.
   */
  lemma MessageFlagsEnvelopeKeys(q: QueryOption)
    ensures var keys := EmittedKeys(MessageFlagsRequest(q));
      && keys <= {WatchKey, StateKey, PresenceKey, FilterKey, LimitKey, OffsetKey}
      && (FilterKey in keys <==> |q.filter| != 0)
      && (LimitKey in keys <==> q.limit != 0)
      && (OffsetKey in keys <==> q.offset != 0)
  {
  }

  /**
   * Round trip of the channels envelope: built from an option with the
   * option's own sort, it reads back as that option; and every envelope
   * with the channels flags is the one built from what it reads back as.
   */
  lemma ChannelsRoundTrip(q: QueryOption, r: QueryRequest)
    ensures OptionOf(ChannelsRequest(q, q.sort)) == q
    ensures r.state && !r.watch && !r.presence ==> ChannelsRequest(OptionOf(r), r.sort) == r
  {
  }

  /**
   * None of the three builders looks at the option's own sort field: only
   * the directives passed separately reach the envelope.
   */
  lemma OptionSortUnused(q: QueryOption, sorters: seq<SortOption>, other: seq<SortOption>)
    ensures UsersRequest(q.(sort := other), sorters) == UsersRequest(q, sorters)
    ensures ChannelsRequest(q.(sort := other), sorters) == ChannelsRequest(q, sorters)
    ensures MessageFlagsRequest(q.(sort := other)) == MessageFlagsRequest(q)
  {
  }

  /**
   * How the three envelopes relate: a users envelope is a channels
   * envelope stripped of the state flag, the acting user and the
   * per-channel limits; a flags envelope is a users envelope with no sort.
   */
  lemma EnvelopesRelated(q: QueryOption, sorters: seq<SortOption>)
    ensures UsersRequest(q, sorters)
         == ChannelsRequest(q, sorters).(state := false, userID := "", memberLimit := None, messageLimit := None)
    ensures MessageFlagsRequest(q) == UsersRequest(q, [])
  {
  }
}
