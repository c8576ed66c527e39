/** The `antidelete` command: its owner check and the effects of its `on`,
    `off` and status branches on the system. The reply texts and reactions are
    templated messages; only what they report is modelled. */
module Admin {
  import opened JsValues
  import opened Cache
  import opened Recovery

  /** The two settings the plugin reads: `ANTI_DELETE` and `ANTI_DELETE_PATH`. */
  datatype Config = Config(antiDelete: bool, antiDeletePath: string)

  /** The values used when the environment sets neither. */
  const DefaultConfig: Config := Config(true, "inbox")

  /** The routing mode a reply reports. */
  datatype Mode = SameChat | Inbox

  function ModeOf(deletePath: string): (m: Mode)
    ensures m == SameChat <==> deletePath == "same"
  {
    if deletePath == "same" then SameChat else Inbox
  }

  /** What the command replies. */
  datatype Reply =
    | NotAuthorized
    | TurnedOn(mode: Mode)
    | TurnedOff
    | StatusReport(active: bool, mode: Mode, cached: nat)

  /** `antidelete <subCmd>` sent by `sender`. Only the bot's own account may
      use it; `on` sets the flag, `off` clears it and empties the cache without
      saving, anything else reports the flag, the mode and the cache size. */
  method AntiDeleteCommand(sys: AntiDeleteSystem, conn: Connection, sender: string,
                           subCmd: Option<string>, deletePath: string) returns (reply: Reply)
    modifies sys
    ensures sender != conn.userId ==>
              reply == NotAuthorized && sys.enabled == old(sys.enabled) && sys.State() == old(sys.State())
    ensures sender == conn.userId && subCmd == Some("on") ==>
              reply == TurnedOn(ModeOf(deletePath)) && sys.enabled && sys.State() == old(sys.State())
    ensures sender == conn.userId && subCmd == Some("off") ==>
              reply == TurnedOff && !sys.enabled && sys.messageCache == map[] && sys.saved == old(sys.saved)
    ensures sender == conn.userId && subCmd != Some("on") && subCmd != Some("off") ==>
              && reply == StatusReport(old(sys.enabled), ModeOf(deletePath), |old(sys.messageCache)|)
              && sys.enabled == old(sys.enabled) && sys.State() == old(sys.State())
  {
    if sender != conn.userId {
      return NotAuthorized;
    }
    var mode := ModeOf(deletePath);
    if subCmd == Some("on") {
      sys.enabled := true;
      reply := TurnedOn(mode);
    } else if subCmd == Some("off") {
      sys.enabled := false;
      sys.messageCache := map[];
      reply := TurnedOff;
    } else {
      reply := StatusReport(sys.enabled, mode, |sys.messageCache|);
    }
  }
}
