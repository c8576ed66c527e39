/** The `messages.update` handler: when an update names a cached message, send
    its content to the configured destination and then drop it from the cache.

    Sends go through `Connection.SendMessage`, which appends to an outbox when
    the transport accepts the message. The send outcome and the outcome of the
    database write for the i-th update of a batch are given by `env(i)`; the
    locale formatting of the capture time is the parameter `formatTime`. */
module Recovery {
  import opened JsValues
  import opened Messages
  import opened Jid
  import opened Cache

  /** `proto.WebMessageInfo.StubType.REVOKE`. */
  const Revoke: int := 1

  /** The `update` part of a `messages.update` element. */
  datatype UpdateData = UpdateData(messageStubType: Option<int>, participant: Option<string>)

  /** One element `{ key, update }` of a `messages.update` event. */
  datatype MessageUpdate = MessageUpdate(key: Key, update: Option<UpdateData>)

  /** `updateData?.messageStubType` as a JavaScript value. */
  function StubType(u: Option<UpdateData>): Primitive
  {
    if u.Some? && u.value.messageStubType.Some? then Number(u.value.messageStubType.value) else Undefined
  }

  /** The first half of the skip condition, as written:
      `!updateData?.messageStubType === REVOKE`. `!` binds tighter than `===`,
      so a boolean is compared with a number, and the test never holds. */
  predicate RevokeTestAsWritten(u: Option<UpdateData>): (r: bool)
    ensures !r
  {
    StrictEquals(Not(StubType(u)), Number(Revoke))
  }

  /** The test the condition was evidently meant to make: the update is a
      revocation. The handler does not use it. */
  predicate IsRevocation(u: Option<UpdateData>)
  {
    StrictEquals(StubType(u), Number(Revoke))
  }

  /** Since the written test never holds, the only filters left are "the id
      is cached" and "the update data is there": the stub type plays no part,
      so a revocation and an update that is not one are treated alike. */
  lemma RecoveryIgnoresStubType(w: World, u: MessageUpdate, stub: Option<int>)
    requires u.update.Some?
    ensures Recoverable(w, u) <==> u.key.id in w.store.cache
    ensures Recoverable(w, u) <==>
              Recoverable(w, MessageUpdate(u.key, Some(u.update.value.(messageStubType := stub))))
  {
  }

  /** An update that is not a revocation passes the written filter just like
      one that is. */
  lemma RevokeTestIgnoresStubType()
    ensures IsRevocation(Some(UpdateData(Some(Revoke), None)))
    ensures !IsRevocation(Some(UpdateData(None, None)))
    ensures !RevokeTestAsWritten(Some(UpdateData(Some(Revoke), None)))
    ensures !RevokeTestAsWritten(Some(UpdateData(None, None)))
  {
  }

  /** What `Matrix.sendMessage` is given: a media message captioned with the
      alert, or a text message. */
  datatype Outgoing =
    | MediaMessage(kind: Option<MediaKind>, media: Bytes, caption: string, mentions: seq<string>)
    | TextMessage(text: string, mentions: seq<string>)

  /** One message handed to the transport, with its destination chat. */
  datatype Delivery = Delivery(destination: Option<string>, content: Outgoing)

  /** The part of `Matrix` the handlers use: the bot's own id and the sends it
      has accepted. */
  class Connection {
    const userId: string
    var outbox: seq<Delivery>

    constructor (userId: string)
      ensures this.userId == userId && outbox == []
    {
      this.userId := userId;
      outbox := [];
    }

    /** `await Matrix.sendMessage(destination, content)`; `ok` is false when
        the send throws, and then nothing is recorded as sent. */
    method SendMessage(destination: Option<string>, content: Outgoing, ok: bool)
      modifies this
      ensures outbox == if ok then old(outbox) + [Delivery(destination, content)] else old(outbox)
    {
      if ok {
        outbox := outbox + [Delivery(destination, content)];
      }
    }
  }

  /** Where a recovered message goes: the chat it was deleted from when the
      path setting is `"same"`, the bot's own chat otherwise. */
  function Destination(deletePath: string, key: Key, botId: string): (r: Option<string>)
    ensures deletePath == "same" ==> r == key.remoteJid
    ensures deletePath != "same" ==> r == Some(botId)
  {
    if deletePath == "same" then key.remoteJid else Some(botId)
  }

  function UpperChar(c: char): (r: char)
    ensures 'a' <= c <= 'z' ==> 'A' <= r <= 'Z' && r as int == c as int - 32
    ensures !('a' <= c <= 'z') ==> r == c
  {
    if 'a' <= c <= 'z' then (c as int - 32) as char else c
  }

  /** `toUpperCase` on ASCII text. */
  function Upper(s: string): (r: string)
    ensures |r| == |s|
    ensures forall i :: 0 <= i < |s| ==> r[i] == UpperChar(s[i])
  {
    seq(|s|, i requires 0 <= i < |s| => UpperChar(s[i]))
  }

  /** `msg.type ? msg.type.toUpperCase() : 'TEXT'`: the upper-cased kind
      name, or `TEXT` for an entry without media. */
  function TypeLabel(kind: Option<MediaKind>): (r: string)
    ensures kind.None? <==> r == "TEXT"
    ensures kind.Some? ==> |r| == |KindName(kind.value)|
  {
    if kind.Some? then Upper(KindName(kind.value)) else "TEXT"
  }

  lemma TypeLabels()
    ensures TypeLabel(Some(Image)) == "IMAGE"
    ensures TypeLabel(Some(Video)) == "VIDEO"
    ensures TypeLabel(Some(Audio)) == "AUDIO"
    ensures TypeLabel(Some(Document)) == "DOCUMENT"
  {
  }

  /** `updateData.participant || key.participant`: who deleted the message,
      as the update reports it, else as the message key does. */
  function Deleter(u: UpdateData, key: Key): (r: Option<string>)
    ensures Truthy(u.participant) ==> r == u.participant
    ensures !Truthy(u.participant) ==> r == key.participant
    ensures Truthy(r) <==> Truthy(u.participant) || Truthy(key.participant)
  {
    Or(u.participant, key.participant)
  }

  /** `[sender, deleter].filter(Boolean)`. */
  function Mentions(sender: Option<string>, deleter: Option<string>): (r: seq<string>)
    ensures forall x :: x in r ==> x != ""
    ensures |r| == (if Truthy(sender) then 1 else 0) + (if Truthy(deleter) then 1 else 0)
    ensures Truthy(sender) ==> r[0] == sender.value
    ensures Truthy(deleter) ==> r[|r| - 1] == deleter.value
  {
    (if Truthy(sender) then [sender.value] else []) + (if Truthy(deleter) then [deleter.value] else [])
  }

  /** `lines.join(sep)`. */
  function Join(lines: seq<string>, sep: string): string
  {
    if |lines| == 0 then ""
    else if |lines| == 1 then lines[0]
    else lines[0] + sep + Join(lines[1..], sep)
  }

  /** `sub` occurs in `s` at index `i`. */
  predicate OccursAt(sub: string, s: string, i: int)
  {
    0 <= i <= |s| - |sub| && s[i..i + |sub|] == sub
  }

  /** `sub` occurs in `s`. */
  ghost predicate IsInfix(sub: string, s: string)
  {
    exists i :: OccursAt(sub, s, i)
  }

  /** `s` ends with `suffix`. */
  predicate IsSuffix(suffix: string, s: string)
  {
    |suffix| <= |s| && s[|s| - |suffix|..] == suffix
  }

  /** Every line survives the join. */
  lemma {:induction false} JoinKeepsLines(lines: seq<string>, sep: string, k: nat)
    requires k < |lines|
    ensures IsInfix(lines[k], Join(lines, sep))
  {
    var s := Join(lines, sep);
    if |lines| == 1 || k == 0 {
      assert s[0..|lines[0]|] == lines[0];
      assert OccursAt(lines[k], s, 0);
    } else {
      JoinKeepsLines(lines[1..], sep, k - 1);
      var t := Join(lines[1..], sep);
      assert lines[1..][k - 1] == lines[k];
      var i :| OccursAt(lines[k], t, i);
      var off := |lines[0] + sep|;
      assert s == lines[0] + sep + t;
      assert s[off + i..off + i + |lines[k]|] == t[i..i + |lines[k]|];
      assert OccursAt(lines[k], s, off + i);
    }
  }

  /** `lines.join(sep)` begins with the first line and ends with the last. */
  lemma {:induction false} JoinEnds(lines: seq<string>, sep: string)
    requires |lines| > 0
    ensures lines[0] <= Join(lines, sep)
    ensures IsSuffix(lines[|lines| - 1], Join(lines, sep))
  {
    if |lines| > 1 {
      var t := Join(lines[1..], sep);
      JoinEnds(lines[1..], sep);
      var s := lines[0] + sep + t;
      assert s[..|lines[0]|] == lines[0];
      var last := lines[|lines| - 1];
      assert lines[1..][|lines[1..]| - 1] == last;
      assert s[|s| - |last|..] == t[|t| - |last|..];
    }
  }

  /** The seven lines of the alert: a header, an opening rule, the type, the
      sender, the deleter, the capture time and a closing rule. */
  function AlertLines(typeLabel: string, sender: string, deleter: string, time: string): (r: seq<string>)
    ensures |r| == 7
    ensures r[0] == "━━〔 *ANTI-DELETE ALERT* 〕━━┈⊷" && r[1] == "┃◈╭─────────────·๏" && r[6] == "┃◈╰─────────────·๏"
    ensures "┃◈┃• *Type:* " <= r[2] && "┃◈┃• *Sender:* @" <= r[3] && "┃◈┃• *Deleted by:* @" <= r[4] && "┃◈┃• *Time:* " <= r[5]
    ensures IsSuffix(typeLabel, r[2]) && IsSuffix(sender, r[3]) && IsSuffix(deleter, r[4]) && IsSuffix(time, r[5])
  {
    [ "━━〔 *ANTI-DELETE ALERT* 〕━━┈⊷",
      "┃◈╭─────────────·๏",
      "┃◈┃• *Type:* " + typeLabel,
      "┃◈┃• *Sender:* @" + sender,
      "┃◈┃• *Deleted by:* @" + deleter,
      "┃◈┃• *Time:* " + time,
      "┃◈╰─────────────·๏" ]
  }

  /** `alertMsg` for a cached entry: the alert lines joined by newlines, from
      the header to the closing rule. */
  function AlertText(e: Entry, deleter: Option<string>, formatTime: int -> string): (r: string)
    ensures "━━〔 *ANTI-DELETE ALERT* 〕━━┈⊷" <= r
    ensures IsSuffix("┃◈╰─────────────·๏", r)
  {
    var lines := AlertLines(TypeLabel(e.kind), FormatJid(e.sender), FormatJid(deleter), formatTime(e.timestamp));
    JoinEnds(lines, "\n");
    Join(lines, "\n")
  }

  /** The alert names the type, the sender and the deleter. */
  lemma AlertNamesParties(e: Entry, deleter: Option<string>, formatTime: int -> string)
    ensures IsInfix("┃◈┃• *Type:* " + TypeLabel(e.kind), AlertText(e, deleter, formatTime))
    ensures IsInfix("┃◈┃• *Sender:* @" + FormatJid(e.sender), AlertText(e, deleter, formatTime))
    ensures IsInfix("┃◈┃• *Deleted by:* @" + FormatJid(deleter), AlertText(e, deleter, formatTime))
    ensures IsInfix("┃◈┃• *Time:* " + formatTime(e.timestamp), AlertText(e, deleter, formatTime))
  {
    var lines := AlertLines(TypeLabel(e.kind), FormatJid(e.sender), FormatJid(deleter), formatTime(e.timestamp));
    JoinKeepsLines(lines, "\n", 2);
    JoinKeepsLines(lines, "\n", 3);
    JoinKeepsLines(lines, "\n", 4);
    JoinKeepsLines(lines, "\n", 5);
  }

  /** `${msg.content}`: a missing content prints as `undefined`. */
  function ContentText(content: Option<string>): string
  {
    if content.Some? then content.value else "undefined"
  }

  const ContentHeading: string := "\n┃◈• *Content:*\n"

  /** The one message sent for a recovered entry: its media with the alert as
      caption when it has media, otherwise the alert followed by its text. */
  function RecoveryMessage(e: Entry, deleter: Option<string>, formatTime: int -> string): (r: Outgoing)
    ensures r.MediaMessage? <==> e.media.Some?
    ensures r.MediaMessage? ==>
              r.media == e.media.value && r.kind == e.kind && r.caption == AlertText(e, deleter, formatTime)
    ensures r.TextMessage? ==>
              && AlertText(e, deleter, formatTime) <= r.text
              && IsSuffix(ContentText(e.content), r.text)
    ensures r.TextMessage? ==> r.text == AlertText(e, deleter, formatTime) + ContentHeading + ContentText(e.content)
    ensures r.mentions == Mentions(e.sender, deleter)
  {
    var alert := AlertText(e, deleter, formatTime);
    var mentions := Mentions(e.sender, deleter);
    if e.media.Some? then MediaMessage(e.kind, e.media.value, alert, mentions)
    else
      var text := alert + ContentHeading + ContentText(e.content);
      assert IsSuffix(ContentText(e.content), text);
      TextMessage(text, mentions)
  }

  /** The routing settings the handler reads: `config.ANTI_DELETE_PATH` and
      `Matrix.user.id`, with `formatTime`. */
  datatype Route = Route(deletePath: string, botId: string, formatTime: int -> string)

  /** The outside world's answers while one update is handled. */
  datatype RecoveryEnv = RecoveryEnv(sendOk: bool, saveOk: bool)

  /** The cache and what has been sent so far. */
  datatype World = World(store: CacheState, outbox: seq<Delivery>)

  /** The delivery the handler makes for update `u` of cached entry `e`. */
  function DeliveryFor(u: MessageUpdate, e: Entry, route: Route): Delivery
    requires u.update.Some?
  {
    Delivery(Destination(route.deletePath, u.key, route.botId),
             RecoveryMessage(e, Deleter(u.update.value, u.key), route.formatTime))
  }

  /** The handler would send for `u`: its id is cached and reading the
      deleter does not throw (`updateData.participant` of a missing update
      does). */
  predicate Recoverable(w: World, u: MessageUpdate)
  {
    !RevokeTestAsWritten(u.update) && u.key.id in w.store.cache && u.update.Some?
  }

  /** One iteration of the handler's loop. Either nothing changes, or exactly
      one delivery is appended and only then the id is removed. */
  function RecoverStep(w: World, u: MessageUpdate, route: Route, env: RecoveryEnv): (r: World)
    ensures !Recoverable(w, u) ==> r == w
    ensures !env.sendOk ==> r == w
    ensures Recoverable(w, u) && env.sendOk ==>
              && r.outbox == w.outbox + [DeliveryFor(u, w.store.cache[u.key.id], route)]
              && r.store == Remove(w.store, u.key.id, env.saveOk)
  {
    if RevokeTestAsWritten(u.update) || u.key.id !in w.store.cache then w
    else if u.update.None? then w
    else if !env.sendOk then w
    else
      World(Remove(w.store, u.key.id, env.saveOk),
            w.outbox + [DeliveryFor(u, w.store.cache[u.key.id], route)])
  }

  /** The state after the first `n` updates of a batch. The cache only loses
      entries: what is left is the old map restricted to some of its keys. */
  function RecoverUpTo(w: World, updates: seq<MessageUpdate>, route: Route, env: nat -> RecoveryEnv, n: nat): (r: World)
    requires n <= |updates|
    ensures IsSubMap(r.store.cache, w.store.cache)
  {
    if n == 0 then w else RecoverStep(RecoverUpTo(w, updates, route, env, n - 1), updates[n - 1], route, env(n - 1))
  }

  /** At most once: after an update has been recovered, delivering the same
      update again sends nothing and changes nothing. */
  lemma RecoverAtMostOnce(w: World, u: MessageUpdate, route: Route, env: RecoveryEnv, env': RecoveryEnv)
    requires |RecoverStep(w, u, route, env).outbox| > |w.outbox|
    ensures u.key.id !in RecoverStep(w, u, route, env).store.cache
    ensures RecoverStep(RecoverStep(w, u, route, env), u, route, env') == RecoverStep(w, u, route, env)
  {
  }

  /** Over a batch, what was sent before stays, and every send accounts for
      exactly one entry removed: sends made + entries left = entries before. */
  lemma {:induction false} RecoverAccounting(w: World, updates: seq<MessageUpdate>, route: Route, env: nat -> RecoveryEnv, n: nat)
    requires n <= |updates|
    ensures w.outbox <= RecoverUpTo(w, updates, route, env, n).outbox
    ensures |RecoverUpTo(w, updates, route, env, n).outbox| - |w.outbox|
            + |RecoverUpTo(w, updates, route, env, n).store.cache| == |w.store.cache|
  {
    if n > 0 {
      RecoverAccounting(w, updates, route, env, n - 1);
      var prev := RecoverUpTo(w, updates, route, env, n - 1);
      assert RecoverUpTo(w, updates, route, env, n) == RecoverStep(prev, updates[n - 1], route, env(n - 1));
    }
  }

  /** Every delivery of `out` from position `from` on goes to one of `dests`. */
  predicate RoutedWithin(out: seq<Delivery>, from: nat, dests: set<Option<string>>)
  {
    forall j :: from <= j < |out| ==> out[j].destination in dests
  }

  /** The chats of the first `n` updates of a batch. */
  function UpdateChats(updates: seq<MessageUpdate>, n: nat): (r: set<Option<string>>)
    requires n <= |updates|
    ensures forall i :: 0 <= i < n ==> updates[i].key.remoteJid in r
    ensures forall c :: c in r ==> exists i :: 0 <= i < n && updates[i].key.remoteJid == c
  {
    if n == 0 then {} else UpdateChats(updates, n - 1) + {updates[n - 1].key.remoteJid}
  }

  /** One step sends nothing, or one message to the update's destination. */
  lemma RecoverStepRouting(w: World, u: MessageUpdate, route: Route, env: RecoveryEnv)
    ensures w.outbox <= RecoverStep(w, u, route, env).outbox
    ensures |RecoverStep(w, u, route, env).outbox| <= |w.outbox| + 1
    ensures |RecoverStep(w, u, route, env).outbox| > |w.outbox| ==>
              RecoverStep(w, u, route, env).outbox[|w.outbox|].destination
              == Destination(route.deletePath, u.key, route.botId)
  {
  }

  /** Appending at most one delivery to `d` keeps the routing of an outbox
      within `dests + {d}`. */
  lemma ExtendRouting(prev: seq<Delivery>, next: seq<Delivery>, from: nat, dests: set<Option<string>>, d: Option<string>)
    requires RoutedWithin(prev, from, dests) && from <= |prev|
    requires prev <= next && |next| <= |prev| + 1
    requires |next| > |prev| ==> next[|prev|].destination == d
    ensures RoutedWithin(next, from, dests + {d})
  {
    forall j | from <= j < |next|
      ensures next[j].destination in dests + {d}
    {
      if j < |prev| {
        assert next[j] == prev[j];
      }
    }
  }

  /** Routing: outside `"same"` mode every recovered message goes to the bot's
      own chat; in `"same"` mode each goes to the chat of an update of the
      batch. */
  lemma {:induction false} RecoverRouting(w: World, updates: seq<MessageUpdate>, route: Route, env: nat -> RecoveryEnv, n: nat)
    requires n <= |updates|
    ensures w.outbox <= RecoverUpTo(w, updates, route, env, n).outbox
    ensures route.deletePath != "same" ==>
              RoutedWithin(RecoverUpTo(w, updates, route, env, n).outbox, |w.outbox|, {Some(route.botId)})
    ensures route.deletePath == "same" ==>
              RoutedWithin(RecoverUpTo(w, updates, route, env, n).outbox, |w.outbox|, UpdateChats(updates, n))
  {
    if n > 0 {
      RecoverRouting(w, updates, route, env, n - 1);
      var prev := RecoverUpTo(w, updates, route, env, n - 1);
      var r := RecoverUpTo(w, updates, route, env, n);
      RecoverStepRouting(prev, updates[n - 1], route, env(n - 1));
      var d := Destination(route.deletePath, updates[n - 1].key, route.botId);
      if route.deletePath == "same" {
        ExtendRouting(prev.outbox, r.outbox, |w.outbox|, UpdateChats(updates, n - 1), d);
      } else {
        ExtendRouting(prev.outbox, r.outbox, |w.outbox|, {Some(route.botId)}, d);
        assert {Some(route.botId)} + {d} == {Some(route.botId)};
      }
    }
  }

  /** With an empty cache (after `off`, say) a batch of updates does nothing. */
  lemma {:induction false} RecoverFromEmptyCache(w: World, updates: seq<MessageUpdate>, route: Route, env: nat -> RecoveryEnv, n: nat)
    requires n <= |updates| && w.store.cache == map[]
    ensures RecoverUpTo(w, updates, route, env, n) == w
  {
    if n > 0 {
      RecoverFromEmptyCache(w, updates, route, env, n - 1);
    }
  }

  /** The body of the handler's loop for one update `{ key, update }`: the
      `try` block, with a throw ending the iteration. */
  method HandleUpdate(sys: AntiDeleteSystem, conn: Connection, u: MessageUpdate,
                      deletePath: string, formatTime: int -> string, env: RecoveryEnv)
    modifies sys, conn
    ensures sys.enabled == old(sys.enabled)
    ensures World(sys.State(), conn.outbox) ==
            RecoverStep(World(old(sys.State()), old(conn.outbox)), u, Route(deletePath, conn.userId, formatTime), env)
  {
    var key := u.key;
    var updateData := u.update;
    if RevokeTestAsWritten(updateData) || key.id !in sys.messageCache {
      return;
    }
    var msg := sys.messageCache[key.id];
    var destination := Destination(deletePath, key, conn.userId);
    if updateData.None? {
      // `updateData.participant` throws; the catch skips this update
      return;
    }
    var deleter := Deleter(updateData.value, key);
    var content := RecoveryMessage(msg, deleter, formatTime);
    conn.SendMessage(destination, content, env.sendOk);
    if !env.sendOk {
      // the send threw; the entry stays cached
      return;
    }
    sys.DeleteMessage(key.id, env.saveOk);
  }

  /** The `messages.update` handler for one batch; nothing happens while the
      system is disabled. */
  method OnUpdate(sys: AntiDeleteSystem, conn: Connection, updates: seq<MessageUpdate>,
                  deletePath: string, formatTime: int -> string, env: nat -> RecoveryEnv)
    modifies sys, conn
    ensures sys.enabled == old(sys.enabled)
    ensures World(sys.State(), conn.outbox) ==
            if old(sys.enabled)
            then RecoverUpTo(World(old(sys.State()), old(conn.outbox)), updates,
                             Route(deletePath, conn.userId, formatTime), env, |updates|)
            else World(old(sys.State()), old(conn.outbox))
  {
    if !sys.enabled {
      return;
    }
    ghost var start := World(sys.State(), conn.outbox);
    ghost var route := Route(deletePath, conn.userId, formatTime);
    for i := 0 to |updates|
      invariant sys.enabled == old(sys.enabled)
      invariant World(sys.State(), conn.outbox) == RecoverUpTo(start, updates, route, env, i)
    {
      HandleUpdate(sys, conn, updates[i], deletePath, formatTime, env(i));
    }
  }
}
