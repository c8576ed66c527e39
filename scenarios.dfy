/** Clients of the model that walk through whole episodes: what a caller can
    conclude from the specifications alone. */
module Scenarios {
  import opened JsValues
  import opened Messages
  import opened Cache
  import opened Capture
  import opened Recovery
  import opened Admin

  /** A text message is captured, deleted, and recovered once into the bot's
      own chat; delivering the deletion again sends nothing more. */
  method TextRecovery()
  {
    var sys := new AntiDeleteSystem(DefaultConfig.antiDelete, None);
    var conn := new Connection("bot@s.whatsapp.net");
    var msg := WebMessage(Key(Some("C@g.us"), false, "m1", Some("A@s.whatsapp.net")),
                          Some(Payload(Some("hello"), [])));
    var env := _ => CaptureEnv(1000, Failed, true);
    assert Captured(msg, env(0)).Some?;
    OnUpsert(sys, [msg], env);
    assert "m1" in sys.messageCache && sys.messageCache["m1"].content == Some("hello");
    assert sys.messageCache["m1"].media == None;

    var upd := MessageUpdate(Key(Some("C@g.us"), false, "m1", None),
                             Some(UpdateData(Some(Revoke), Some("A@s.whatsapp.net"))));
    OnUpdate(sys, conn, [upd], DefaultConfig.antiDeletePath, _ => "12 Jan, 10:00", _ => RecoveryEnv(true, true));
    assert "m1" !in sys.messageCache;
    assert |conn.outbox| == 1;
    assert conn.outbox[0].destination == Some("bot@s.whatsapp.net");
    assert conn.outbox[0].content.TextMessage?;
    assert IsSuffix("hello", conn.outbox[0].content.text);

    OnUpdate(sys, conn, [upd], DefaultConfig.antiDeletePath, _ => "12 Jan, 10:00", _ => RecoveryEnv(true, true));
    assert |conn.outbox| == 1;
  }

  /** An image whose download fails is not cached even with a caption, so its
      later deletion recovers nothing. */
  method FailedMediaDownload()
  {
    var sys := new AntiDeleteSystem(true, None);
    var conn := new Connection("bot@s.whatsapp.net");
    var image := Field("imageMessage", SubMessage(None, Some("look")));
    var msg := WebMessage(Key(Some("C@g.us"), false, "m2", None), Some(Payload(None, [image])));
    assert msg.message.value.fields[0].name == FieldName(Image);
    assert FirstKind(msg.message.value) == Some(Image);
    var env := _ => CaptureEnv(1000, Failed, true);
    FailedDownloadSkipsMessage(sys.State(), [msg], env, 0);
    OnUpsert(sys, [msg], env);
    assert sys.messageCache == map[];

    var upd := MessageUpdate(Key(Some("C@g.us"), false, "m2", None), Some(UpdateData(Some(Revoke), None)));
    var recEnv := _ => RecoveryEnv(true, true);
    RecoverFromEmptyCache(World(sys.State(), conn.outbox), [upd], Route("same", conn.userId, _ => ""), recEnv, 1);
    OnUpdate(sys, conn, [upd], "same", _ => "", recEnv);
    assert conn.outbox == [];
  }

  /** `off` empties the cache, and a later deletion is ignored. */
  method DisableClearsCache()
  {
    var sys := new AntiDeleteSystem(true, None);
    var conn := new Connection("bot@s.whatsapp.net");
    var msg := WebMessage(Key(Some("C@g.us"), false, "m3", None), Some(Payload(Some("hi"), [])));
    OnUpsert(sys, [msg], _ => CaptureEnv(1000, Failed, true));
    assert |sys.messageCache| == 1;

    var reply := AntiDeleteCommand(sys, conn, "bot@s.whatsapp.net", Some("off"), "inbox");
    assert reply == TurnedOff && |sys.messageCache| == 0;

    var upd := MessageUpdate(Key(Some("C@g.us"), false, "m3", None), Some(UpdateData(Some(Revoke), None)));
    OnUpdate(sys, conn, [upd], "inbox", _ => "", _ => RecoveryEnv(true, true));
    assert conn.outbox == [];
  }
}
