/**
  `TelegramClient::send_message`: one delivery attempt, chunk by chunk.

  `send_chunk` is the outside world: its k-th request within an attempt is made at `at(k)`
  and answered `api(k)`.
*/
module TelegramClient {
  import opened Messages
  import Splitting

  const MAX_MESSAGE_CHARS: nat := 4096

  datatype Reply = Accepted | Rejected(error: SendError)

  /** What one `sendMessage` request carries, and when it is made. */
  datatype Call = Call(at: nat, target: string, text: string, parseMode: Option<string>, silent: bool)

  function ParseMode(format: Format): Option<string> {
    match format
    case Plain => None
    case Markdown => Some("Markdown")
    case MarkdownV2 => Some("MarkdownV2")
    case Html => Some("HTML")
  }

  /** The chunks a body is sent as. */
  function Chunks(body: string): seq<string> {
    Splitting.Split(body, MAX_MESSAGE_CHARS)
  }

  /** Index of the first rejected chunk among the first `n`, or `n`. */
  function AcceptedPrefix(api: nat -> Reply, n: nat): (k: nat)
    ensures k <= n
    ensures forall j :: 0 <= j < k ==> api(j).Accepted?
    ensures k < n ==> api(k).Rejected?
  {
    if n == 0 then 0
    else
      var k := AcceptedPrefix(api, n - 1);
      if k < n - 1 || api(n - 1).Rejected? then k else n
  }

  function CallsFor(target: Target, chunks: seq<string>, format: Format, silent: bool, at: nat -> nat)
    : (calls: seq<Call>)
    ensures |calls| == |chunks|
    ensures forall i :: 0 <= i < |chunks| ==>
              calls[i] == Call(at(i), target.name, chunks[i], ParseMode(format), silent)
  {
    seq(|chunks|, i requires 0 <= i < |chunks| => Call(at(i), target.name, chunks[i], ParseMode(format), silent))
  }

  /** The calls an attempt makes: every accepted chunk, and the first rejected one. */
  function CallsMade(target: Target, body: string, format: Format, silent: bool, api: nat -> Reply, at: nat -> nat)
    : seq<Call>
  {
    var chunks := Chunks(body);
    var k := AcceptedPrefix(api, |chunks|);
    CallsFor(target, if k < |chunks| then chunks[..k + 1] else chunks, format, silent, at)
  }

  /** The error that ends an attempt, or `None` when every chunk is accepted. */
  function AttemptError(body: string, api: nat -> Reply): Option<SendError> {
    var n := |Chunks(body)|;
    var k := AcceptedPrefix(api, n);
    if k < n then Some(api(k).error) else None
  }

  function Texts(calls: seq<Call>): seq<string> {
    seq(|calls|, i requires 0 <= i < |calls| => calls[i].text)
  }

  class Client {
    var calls: seq<Call>

    constructor ()
      ensures calls == []
    {
      calls := [];
    }

    method SendMessage(target: Target, body: string, format: Format, silent: bool, api: nat -> Reply, at: nat -> nat)
      returns (error: Option<SendError>)
      modifies this
      ensures calls == old(calls) + CallsMade(target, body, format, silent, api, at)
      ensures error == AttemptError(body, api)
    {
      var chunks := Splitting.SplitMessage(body, MAX_MESSAGE_CHARS);
      for k := 0 to |chunks|
        invariant calls == old(calls) + CallsFor(target, chunks[..k], format, silent, at)
        invariant forall j :: 0 <= j < k ==> api(j).Accepted?
      {
        var reply := SendChunk(target, chunks[k], format, silent, api, at, k);
        CallsForNext(target, chunks, k, format, silent, at);
        if reply.Rejected? {
          AttemptEnds(target, body, format, silent, api, at, k);
          return Some(reply.error);
        }
      }
      assert chunks[..|chunks|] == chunks;
      AttemptEnds(target, body, format, silent, api, at, |chunks|);
      return None;
    }

    method SendChunk(target: Target, text: string, format: Format, silent: bool, api: nat -> Reply, at: nat -> nat,
                     k: nat)
      returns (reply: Reply)
      modifies this
      ensures calls == old(calls) + [Call(at(k), target.name, text, ParseMode(format), silent)]
      ensures reply == api(k)
    {
      calls := calls + [Call(at(k), target.name, text, ParseMode(format), silent)];
      reply := api(k);
    }
  }

  lemma CallsForNext(target: Target, chunks: seq<string>, k: nat, format: Format, silent: bool, at: nat -> nat)
    requires k < |chunks|
    ensures CallsFor(target, chunks[..k + 1], format, silent, at)
         == CallsFor(target, chunks[..k], format, silent, at)
             + [Call(at(k), target.name, chunks[k], ParseMode(format), silent)]
  {
  }

  /** `k` is where the attempt ends: at the first rejection, or past the last chunk. */
  lemma AttemptEnds(target: Target, body: string, format: Format, silent: bool, api: nat -> Reply, at: nat -> nat,
                    k: nat)
    requires k <= |Chunks(body)| && (forall j :: 0 <= j < k ==> api(j).Accepted?)
    requires k < |Chunks(body)| ==> api(k).Rejected?
    ensures var chunks := Chunks(body);
            && CallsMade(target, body, format, silent, api, at)
               == CallsFor(target, if k < |chunks| then chunks[..k + 1] else chunks, format, silent, at)
            && AttemptError(body, api) == if k < |chunks| then Some(api(k).error) else None
  {
    assert AcceptedPrefix(api, |Chunks(body)|) == k;
  }

  lemma ChunksExist(body: string)
    ensures |Chunks(body)| >= 1
  {
    Splitting.SplitCount(body, MAX_MESSAGE_CHARS);
  }

  /** The call goes to the target, marked up and announced as asked. */
  predicate Addressed(call: Call, target: Target, format: Format, silent: bool) {
    && call.target == target.name && call.silent == silent
    && match format
       case Plain => call.parseMode.None?
       case Markdown => call.parseMode == Some("Markdown")
       case MarkdownV2 => call.parseMode == Some("MarkdownV2")
       case Html => call.parseMode == Some("HTML")
  }

  lemma CallsAddressed(target: Target, chunks: seq<string>, format: Format, silent: bool, at: nat -> nat, i: nat)
    requires i < |chunks|
    ensures var call := CallsFor(target, chunks, format, silent, at)[i];
            Addressed(call, target, format, silent) && call.at == at(i) && call.text == chunks[i]
  {
  }

  /** Every attempt's calls are a non-empty prefix of the chunks of the body. */
  lemma CallsArePrefix(target: Target, body: string, format: Format, silent: bool, api: nat -> Reply, at: nat -> nat)
    ensures var calls := CallsMade(target, body, format, silent, api, at);
            && calls != []
            && Texts(calls) <= Chunks(body)
            && (forall i :: 0 <= i < |calls| ==> |calls[i].text| <= MAX_MESSAGE_CHARS)
            && (forall i :: 0 <= i < |calls| ==> Addressed(calls[i], target, format, silent) && calls[i].at == at(i))
            && (forall i :: 0 <= i < |calls| - 1 ==> api(i).Accepted?)
  {
    Splitting.SplitPacked(body, MAX_MESSAGE_CHARS);
    Splitting.SplitCount(body, MAX_MESSAGE_CHARS);
    var calls, chunks := CallsMade(target, body, format, silent, api, at), Chunks(body);
    forall i | 0 <= i < |calls|
      ensures Addressed(calls[i], target, format, silent) && calls[i].at == at(i) && calls[i].text == chunks[i]
    {
      var k := AcceptedPrefix(api, |chunks|);
      CallsAddressed(target, if k < |chunks| then chunks[..k + 1] else chunks, format, silent, at, i);
    }
  }

  /**
    An attempt succeeds exactly when each of its calls was accepted and the texts
    of those calls, in order, are the whole body.
  */
  lemma SuccessMeansWholeBody(
    target: Target, body: string, format: Format, silent: bool, api: nat -> Reply, at: nat -> nat)
    ensures var calls := CallsMade(target, body, format, silent, api, at);
            AttemptError(body, api).None? <==>
              && (forall i :: 0 <= i < |calls| ==> api(i).Accepted?)
              && Splitting.Concat(Texts(calls)) == body
    ensures var calls := CallsMade(target, body, format, silent, api, at);
            AttemptError(body, api).Some? ==>
              calls != [] && api(|calls| - 1) == Rejected(AttemptError(body, api).value)
  {
    CallsArePrefix(target, body, format, silent, api, at);
    var chunks := Chunks(body);
    var calls := CallsMade(target, body, format, silent, api, at);
    if AttemptError(body, api).None? {
      assert Texts(calls) == chunks;
      Splitting.SplitConcat(body, MAX_MESSAGE_CHARS);
    } else {
      assert api(|calls| - 1).Rejected?;
    }
  }

  /** An attempt makes one call exactly when its body fits the limit or its first chunk is rejected. */
  lemma OneCallExactly(target: Target, body: string, format: Format, silent: bool, api: nat -> Reply, at: nat -> nat)
    ensures |CallsMade(target, body, format, silent, api, at)| == 1 <==> |body| <= 4096 || api(0).Rejected?
  {
    CallsArePrefix(target, body, format, silent, api, at);
    Splitting.OneChunkExactly(body, MAX_MESSAGE_CHARS);
  }
}
