/** Channel-prefix routing of add-publication and add-subscription commands. */
module Routing {
  import opened Commands

  /** The channel of in-process (IPC) publications and subscriptions. */
  const IPC_CHANNEL: string := "aeron:ipc"
  /** The prefix that marks a subscription as a spy on a network publication. */
  const SPY_PREFIX: string := "aeron-spy:"

  /** Java's `String.startsWith`. */
  predicate StartsWith(s: string, prefix: string) {
    |prefix| <= |s| && s[..|prefix|] == prefix
  }

  /** Java's `String.substring(begin)`. */
  function Substring(s: string, begin: nat): (r: string)
    requires begin <= |s|
    ensures |r| == |s| - begin
    ensures forall i :: 0 <= i < |r| ==> r[i] == s[begin + i]
  {
    s[begin..]
  }

  /** The conductor call for an add-publication: IPC exactly when the channel starts
      with the IPC channel, network otherwise, with every field passed on unchanged. */
  function PublicationCall(channel: string, streamId: Int, correlationId: Long, clientId: Long): (call: Call)
    ensures call.OnAddIpcPublication? <==> StartsWith(channel, IPC_CHANNEL)
    ensures call.OnAddNetworkPublication? <==> !StartsWith(channel, IPC_CHANNEL)
    ensures call.OnAddIpcPublication? || call.OnAddNetworkPublication?
    ensures call.channel == channel && call.streamId == streamId
    ensures call.correlationId == correlationId && call.clientId == clientId
  {
    if StartsWith(channel, IPC_CHANNEL) then
      OnAddIpcPublication(channel, streamId, correlationId, clientId)
    else
      OnAddNetworkPublication(channel, streamId, correlationId, clientId)
  }

  /** The conductor call for an add-subscription. The IPC prefix is tested first, then
      the spy prefix; a spy subscription forwards the channel without the spy prefix,
      the other two forward it unchanged. Exactly one of the three routes is taken. */
  function SubscriptionCall(channel: string, streamId: Int, correlationId: Long, clientId: Long): (call: Call)
    ensures call.OnAddIpcSubscription? <==> StartsWith(channel, IPC_CHANNEL)
    ensures call.OnAddSpySubscription? <==> !StartsWith(channel, IPC_CHANNEL) && StartsWith(channel, SPY_PREFIX)
    ensures call.OnAddNetworkSubscription? <==> !StartsWith(channel, IPC_CHANNEL) && !StartsWith(channel, SPY_PREFIX)
    ensures call.OnAddIpcSubscription? || call.OnAddSpySubscription? || call.OnAddNetworkSubscription?
    ensures call.OnAddSpySubscription? ==> SPY_PREFIX + call.channel == channel
    ensures !call.OnAddSpySubscription? ==> call.channel == channel
    ensures call.streamId == streamId && call.correlationId == correlationId && call.clientId == clientId
  {
    if StartsWith(channel, IPC_CHANNEL) then
      OnAddIpcSubscription(channel, streamId, correlationId, clientId)
    else if StartsWith(channel, SPY_PREFIX) then
      var forwarded := Substring(channel, |SPY_PREFIX|);
      assert SPY_PREFIX + forwarded == channel by {
        assert channel == channel[..|SPY_PREFIX|] + channel[|SPY_PREFIX|..];
      }
      OnAddSpySubscription(forwarded, streamId, correlationId, clientId)
    else
      OnAddNetworkSubscription(channel, streamId, correlationId, clientId)
  }

  /** No channel starts with both prefixes, so testing IPC before spy decides nothing
      that the other order would decide differently. */
  lemma PrefixesExclusive(channel: string)
    ensures !(StartsWith(channel, IPC_CHANNEL) && StartsWith(channel, SPY_PREFIX))
  {
    if StartsWith(channel, IPC_CHANNEL) && |SPY_PREFIX| <= |channel| {
      assert channel[5] == ':' by { assert channel[..|IPC_CHANNEL|][5] == channel[5]; }
      assert channel[..|SPY_PREFIX|][5] != SPY_PREFIX[5];
    }
  }

  /** A spy subscription is routed exactly for the channels `SPY_PREFIX + rest`, and the
      conductor is handed `rest`. */
  lemma {:induction false} SpyRouteCharacterised(rest: string, streamId: Int, correlationId: Long, clientId: Long)
    ensures SubscriptionCall(SPY_PREFIX + rest, streamId, correlationId, clientId)
         == OnAddSpySubscription(rest, streamId, correlationId, clientId)
  {
    var channel := SPY_PREFIX + rest;
    assert channel[..|SPY_PREFIX|] == SPY_PREFIX;
    PrefixesExclusive(channel);
  }

  /** The prefix is stripped once: a channel carrying it twice is forwarded still
      starting with it. */
  lemma SpyPrefixStrippedOnce(rest: string, streamId: Int, correlationId: Long, clientId: Long)
    ensures var call := SubscriptionCall(SPY_PREFIX + SPY_PREFIX + rest, streamId, correlationId, clientId);
            call.OnAddSpySubscription? && StartsWith(call.channel, SPY_PREFIX)
  {
    SpyRouteCharacterised(SPY_PREFIX + rest, streamId, correlationId, clientId);
    assert SPY_PREFIX + SPY_PREFIX + rest == SPY_PREFIX + (SPY_PREFIX + rest);
    assert (SPY_PREFIX + rest)[..|SPY_PREFIX|] == SPY_PREFIX;
  }
}
