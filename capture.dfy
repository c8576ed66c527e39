/** The `messages.upsert` handler: decide for each observed message whether to
    cache it and with which entry.

    Everything the handler asks of the outside world while it handles the i-th
    message of a batch (`Date.now()`, the outcome of
    `downloadContentFromMessage` and of the database write) is given by
    `env(i)`. Each message causes at most one download and at most one save, so
    one answer per position is exact. */
module Capture {
  import opened JsValues
  import opened Messages
  import opened Cache

  /** What downloading an attachment yields: the chunks of the stream, or a
      failure (of the request or of a read from the stream), which throws. */
  datatype Download = Failed | Chunks(chunks: seq<Bytes>)

  /** The outside world's answers while one message is handled. */
  datatype CaptureEnv = CaptureEnv(now: int, download: Download, saveOk: bool)

  function TotalLength(chunks: seq<Bytes>): nat
  {
    if chunks == [] then 0 else TotalLength(chunks[..|chunks| - 1]) + |chunks[|chunks| - 1]|
  }

  /** The buffer that `Buffer.concat` builds from the chunks, in order. */
  function Concat(chunks: seq<Bytes>): (r: Bytes)
    ensures |r| == TotalLength(chunks)
  {
    if chunks == [] then [] else Concat(chunks[..|chunks| - 1]) + chunks[|chunks| - 1]
  }

  /** Concatenation of a stream split in two is the concatenation of the two
      halves: chunk boundaries do not matter. */
  lemma {:induction false} ConcatAppend(a: seq<Bytes>, b: seq<Bytes>)
    ensures Concat(a + b) == Concat(a) + Concat(b)
    decreases |b|
  {
    if b == [] {
      assert a + b == a;
    } else {
      var b' := b[..|b| - 1];
      assert (a + b)[..|a + b| - 1] == a + b';
      ConcatAppend(a, b');
    }
  }

  /** `for await (const chunk of stream) buffer = Buffer.concat([buffer, chunk])`. */
  method Drain(chunks: seq<Bytes>) returns (buffer: Bytes)
    ensures buffer == Concat(chunks)
  {
    buffer := [];
    for i := 0 to |chunks|
      invariant buffer == Concat(chunks[..i])
    {
      assert chunks[..i + 1][..i] == chunks[..i];
      buffer := buffer + chunks[i];
    }
    assert chunks[..|chunks|] == chunks;
  }

  /** The handler looks at a message at all: it is not the bot's own and it
      has a payload. */
  predicate Eligible(msg: WebMessage)
  {
    !msg.key.fromMe && msg.message.Some?
  }

  /** The entry the handler stores for `msg`, or `None` when it stores
      nothing: the message is skipped, the download throws, or there is
      neither text nor media. */
  function Captured(msg: WebMessage, env: CaptureEnv): (r: Option<Entry>)
    ensures !Eligible(msg) ==> r.None?
    ensures Eligible(msg) && FirstKind(msg.message.value).Some? && env.download.Failed? ==> r.None?
    ensures Eligible(msg) && FirstKind(msg.message.value).None? ==>
              (r.Some? <==> Truthy(Content(msg.message.value)))
    ensures Eligible(msg) && FirstKind(msg.message.value).Some? && env.download.Chunks? ==> r.Some?
    ensures r.Some? ==> Eligible(msg)
    ensures r.Some? ==>
              && r.value.timestamp == env.now
              && r.value.chatJid == msg.key.remoteJid
              && r.value.sender == Or(msg.key.participant, msg.key.remoteJid)
              && r.value.content == Content(msg.message.value)
              && r.value.kind == FirstKind(msg.message.value)
              && (r.value.media.Some? <==> r.value.kind.Some?)
              && (r.value.media.Some? ==> r.value.media.value == Concat(env.download.chunks))
              && (Truthy(r.value.content) || r.value.media.Some?)
  {
    if !Eligible(msg) then None
    else
      var p := msg.message.value;
      var content := Content(p);
      var kind := FirstKind(p);
      if kind.Some? && env.download.Failed? then None
      else
        var media := if kind.Some? then Some(Concat(env.download.chunks)) else None;
        if Truthy(content) || media.Some? then
          Some(Entry(content, media, kind, Or(msg.key.participant, msg.key.remoteJid), env.now, msg.key.remoteJid))
        else None
  }

  /** One iteration of the handler's loop: the message's entry, if any, is
      stored under its id, and no other entry changes. */
  function CaptureStep(st: CacheState, msg: WebMessage, env: CaptureEnv): (r: CacheState)
    ensures Captured(msg, env).None? ==> r == st
    ensures Captured(msg, env).Some? ==>
              && msg.key.id in r.cache && r.cache[msg.key.id] == Captured(msg, env).value
    ensures forall k :: k in st.cache && k != msg.key.id ==> k in r.cache && r.cache[k] == st.cache[k]
  {
    match Captured(msg, env)
    case None => st
    case Some(e) => Put(st, msg.key.id, e, env.saveOk)
  }

  /** The state after the first `n` messages of a batch. No key is lost, and
      the map grows by at most one entry per message. */
  function CaptureUpTo(st: CacheState, msgs: seq<WebMessage>, env: nat -> CaptureEnv, n: nat): (r: CacheState)
    requires n <= |msgs|
    ensures st.cache.Keys <= r.cache.Keys
  {
    if n == 0 then st else CaptureStep(CaptureUpTo(st, msgs, env, n - 1), msgs[n - 1], env(n - 1))
  }

  /** The ids that the first `n` messages of a batch store. */
  function CapturedIds(msgs: seq<WebMessage>, env: nat -> CaptureEnv, n: nat): set<string>
    requires n <= |msgs|
  {
    if n == 0 then {}
    else if Captured(msgs[n - 1], env(n - 1)).Some? then CapturedIds(msgs, env, n - 1) + {msgs[n - 1].key.id}
    else CapturedIds(msgs, env, n - 1)
  }

  /** One message adds its id to the keys when it yields an entry, and
      nothing otherwise. */
  lemma CaptureStepKeys(st: CacheState, msg: WebMessage, env: CaptureEnv)
    ensures CaptureStep(st, msg, env).cache.Keys
            == st.cache.Keys + (if Captured(msg, env).Some? then {msg.key.id} else {})
  {
    match Captured(msg, env)
    case None =>
    case Some(e) =>
      assert Put(st, msg.key.id, e, env.saveOk).cache.Keys == st.cache.Keys + {msg.key.id};
  }

  /** A batch only adds: its keys are the old keys plus the ids it stored. */
  lemma {:induction false} CaptureKeys(st: CacheState, msgs: seq<WebMessage>, env: nat -> CaptureEnv, n: nat)
    requires n <= |msgs|
    ensures CaptureUpTo(st, msgs, env, n).cache.Keys == st.cache.Keys + CapturedIds(msgs, env, n)
  {
    if n > 0 {
      CaptureKeys(st, msgs, env, n - 1);
      CaptureStepKeys(CaptureUpTo(st, msgs, env, n - 1), msgs[n - 1], env(n - 1));
    }
  }

  /** An entry that no message of the batch stored over is left unchanged. */
  lemma {:induction false} CaptureKeepsOthers(st: CacheState, msgs: seq<WebMessage>, env: nat -> CaptureEnv, n: nat, k: string)
    requires n <= |msgs|
    requires k in st.cache && k !in CapturedIds(msgs, env, n)
    ensures k in CaptureUpTo(st, msgs, env, n).cache
    ensures CaptureUpTo(st, msgs, env, n).cache[k] == st.cache[k]
  {
    if n > 0 {
      CaptureKeepsOthers(st, msgs, env, n - 1, k);
    }
  }

  /** The map grows by at most one entry per message, and never shrinks. */
  lemma {:induction false} CaptureSize(st: CacheState, msgs: seq<WebMessage>, env: nat -> CaptureEnv, n: nat)
    requires n <= |msgs|
    ensures |st.cache| <= |CaptureUpTo(st, msgs, env, n).cache| <= |st.cache| + n
  {
    if n > 0 {
      CaptureSize(st, msgs, env, n - 1);
      var prev := CaptureUpTo(st, msgs, env, n - 1);
      var m := msgs[n - 1];
      assert CaptureUpTo(st, msgs, env, n) == CaptureStep(prev, m, env(n - 1));
      match Captured(m, env(n - 1))
      case None =>
      case Some(e) =>
        var next := Put(prev, m.key.id, e, env(n - 1).saveOk);
        assert |prev.cache| <= |next.cache| <= |prev.cache| + 1;
    }
  }

  /** Capture is an overwrite per id: when message `j` is the last one of the
      first `n` that stores id `k`, the cache holds exactly its entry. */
  lemma {:induction false} LastCaptureWins(st: CacheState, msgs: seq<WebMessage>, env: nat -> CaptureEnv, n: nat, j: nat)
    requires j < n <= |msgs|
    requires Captured(msgs[j], env(j)).Some?
    requires forall i :: j < i < n && Captured(msgs[i], env(i)).Some? ==> msgs[i].key.id != msgs[j].key.id
    ensures msgs[j].key.id in CaptureUpTo(st, msgs, env, n).cache
    ensures CaptureUpTo(st, msgs, env, n).cache[msgs[j].key.id] == Captured(msgs[j], env(j)).value
  {
    var prev := CaptureUpTo(st, msgs, env, n - 1);
    var m := msgs[n - 1];
    var k := msgs[j].key.id;
    assert CaptureUpTo(st, msgs, env, n) == CaptureStep(prev, m, env(n - 1));
    if n - 1 > j {
      LastCaptureWins(st, msgs, env, n - 1, j);
      assert k in prev.cache;
      if Captured(m, env(n - 1)).Some? {
        assert m.key.id != k;
      }
    }
  }

  /** A message whose attachment cannot be downloaded adds nothing, even when it
      has text, and the batch carries on with the next message. */
  lemma FailedDownloadSkipsMessage(st: CacheState, msgs: seq<WebMessage>, env: nat -> CaptureEnv, i: nat)
    requires i < |msgs| && Eligible(msgs[i])
    requires FirstKind(msgs[i].message.value).Some? && env(i).download.Failed?
    ensures Captured(msgs[i], env(i)).None?
    ensures CaptureUpTo(st, msgs, env, i + 1) == CaptureUpTo(st, msgs, env, i)
  {
  }

  /** The body of the handler's loop for one observed message: the skip test
      and the `try` block, with a throw ending the iteration. */
  method HandleMessage(sys: AntiDeleteSystem, msg: WebMessage, env: CaptureEnv)
    modifies sys
    ensures sys.enabled == old(sys.enabled)
    ensures sys.State() == CaptureStep(old(sys.State()), msg, env)
  {
    if msg.key.fromMe || msg.message.None? {
      return;
    }
    var p := msg.message.value;
    var content := Content(p);
    var kind := FirstKind(p);
    var media: Option<Bytes> := None;
    if kind.Some? {
      match env.download
      case Failed =>
        // the download throws; the catch skips this message
        return;
      case Chunks(chunks) =>
        var buffer := Drain(chunks);
        media := Some(buffer);
    }
    if Truthy(content) || media.Some? {
      var entry := Entry(content, media, kind, Or(msg.key.participant, msg.key.remoteJid),
                         env.now, msg.key.remoteJid);
      sys.AddMessage(msg.key.id, entry, env.saveOk);
    }
  }

  /** The `messages.upsert` handler for one batch; nothing happens while the
      system is disabled. */
  method OnUpsert(sys: AntiDeleteSystem, messages: seq<WebMessage>, env: nat -> CaptureEnv)
    modifies sys
    ensures sys.enabled == old(sys.enabled)
    ensures sys.State() == if old(sys.enabled) then CaptureUpTo(old(sys.State()), messages, env, |messages|)
                           else old(sys.State())
  {
    if !sys.enabled {
      return;
    }
    for i := 0 to |messages|
      invariant sys.enabled == old(sys.enabled)
      invariant sys.State() == CaptureUpTo(old(sys.State()), messages, env, i)
    {
      HandleMessage(sys, messages[i], env(i));
    }
  }
}
