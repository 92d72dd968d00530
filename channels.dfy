/**
 * The channels query: send the channels envelope, then attach each
 * decoded entry's members, messages and read state to its channel object,
 * keeping the server's order.
 */
module Channels {
  import opened Wrappers
  import opened QueryTypes
  import opened Endpoints

  /** The channel objects the entries of a decoded response point at. */
  ghost function Targets(entries: seq<ChannelData>): set<Channel> {
    set i | 0 <= i < |entries| :: entries[i].channel
  }

  /** Entry `k` is the last of the first `n` entries that points at its channel. */
  ghost predicate LastWriter(entries: seq<ChannelData>, k: int, n: int)
    requires n <= |entries|
  {
    0 <= k < n && forall j | k < j < n :: entries[j].channel != entries[k].channel
  }

  /** No two entries point at the same channel object. */
  ghost predicate DistinctChannels(entries: seq<ChannelData>) {
    forall i, j | 0 <= i < j < |entries| :: entries[i].channel != entries[j].channel
  }

  /** Channel `c` holds the nested lists of entry `d`. */
  ghost predicate Carries(c: Channel, d: ChannelData)
    reads c
  {
    c.members == d.members && c.messages == d.messages && c.read == d.read
  }

  /**
   * The outcome of shaping: one channel per entry, in order, the i-th
   * being the i-th entry's channel; each channel holds the lists of the
   * last entry that points at it.
   */
  ghost predicate Attached(entries: seq<ChannelData>, result: seq<Channel>)
    reads Targets(entries)
  {
    && |result| == |entries|
    && (forall i | 0 <= i < |entries| :: result[i] == entries[i].channel)
    && (forall k | LastWriter(entries, k, |entries|) :: Carries(entries[k].channel, entries[k]))
  }

  /** With no aliasing among the entries, the i-th channel holds exactly the i-th entry's lists. */
  lemma AttachedDistinct(entries: seq<ChannelData>, result: seq<Channel>)
    requires Attached(entries, result) && DistinctChannels(entries)
    ensures forall i | 0 <= i < |result| :: Carries(result[i], entries[i])
  {
  }

  /**
   * Writes each entry's members, messages and read state onto its channel
   * and collects the channels in response order. Nothing but those three
   * fields of those channels changes.
   */
  method AttachChannelData(entries: seq<ChannelData>) returns (result: seq<Channel>)
    modifies Targets(entries)
    ensures Attached(entries, result)
    ensures forall i | 0 <= i < |entries| :: entries[i].channel.id == old(entries[i].channel.id)
  {
    result := [];
    for i := 0 to |entries|
      invariant |result| == i
      invariant forall j | 0 <= j < i :: result[j] == entries[j].channel
      invariant forall k | LastWriter(entries, k, i) :: Carries(entries[k].channel, entries[k])
      invariant forall j | 0 <= j < |entries| :: entries[j].channel.id == old(entries[j].channel.id)
    {
      var data := entries[i];
      assert data.channel in Targets(entries);
      result := result + [data.channel];
      data.channel.members := data.members;
      data.channel.messages := data.messages;
      data.channel.read := data.read;
      forall k | LastWriter(entries, k, i + 1)
        ensures Carries(entries[k].channel, entries[k])
      {
        if k < i {
          assert LastWriter(entries, k, i);
        }
      }
    }
  }

  /**
   * Lists channels: sends the channels envelope as the body of a POST to
   * "channels". On a transport error nothing is shaped and the error is
   * returned; otherwise the decoded entries are attached to their channels.
   */
  method QueryChannels(q: QueryOption, sort: seq<SortOption>,
                       makeRequest: Request -> Reply<ChannelsResponse>)
    returns (r: Result<seq<Channel>, Error>)
    modifies Targets(makeRequest(ChannelsCall(q, sort)).decoded.channels)
    ensures var reply := makeRequest(ChannelsCall(q, sort));
      reply.err.Some? ==> r == Failure(reply.err.value) && unchanged(Targets(reply.decoded.channels))
    ensures var reply := makeRequest(ChannelsCall(q, sort));
      reply.err.None? ==> r.Success? && Attached(reply.decoded.channels, r.value)
    ensures var reply := makeRequest(ChannelsCall(q, sort));
      reply.err.None? ==> forall i | 0 <= i < |reply.decoded.channels| ::
        reply.decoded.channels[i].channel.id == old(reply.decoded.channels[i].channel.id)
  {
    var reply := makeRequest(ChannelsCall(q, sort));
    if reply.err.Some? {
      return Failure(reply.err.value);
    }
    var channels := AttachChannelData(reply.decoded.channels);
    return Success(channels);
  }
}
