/**
 * The bot's process-wide state (User_awareness/telegram_bot.py: KNOWN_CHATS, _last_alert)
 * as one object, with the operations that change it: track_alert, the fan-out of an alert
 * to every known chat, one pass of the alert poller, and the chat registration done by the
 * message handler.  Sent messages are appended to `outbox`.
 */
module TelegramBot {
  import opened Wrappers
  import opened Alerts
  import Commands

  predicate NoDup(s: seq<ChatId>) {
    forall i, j :: 0 <= i < j < |s| ==> s[i] != s[j]
  }

  /** The chats as a set, the view the source has of KNOWN_CHATS. */
  function Members(s: seq<ChatId>): set<ChatId> {
    set i | 0 <= i < |s| :: s[i]
  }

  class Bot {
    /** KNOWN_CHATS, in registration order, without repeats. */
    var knownChats: seq<ChatId>
    /** _last_alert: the last time each (lab, kind) fired. */
    var lastAlert: map<AlertKey, int>
    /** Every message sent, in order. */
    var outbox: seq<Notification>
    /** Every firing recorded so far, in order, with the time recorded for it. */
    ghost var fired: seq<Firing>
    /** ALERT_COOLDOWN_SEC. */
    const cooldown: int

    /** The chat list has no repeats; the table and the firing log obey the cooldown invariant. */
    ghost predicate Valid()
      reads this
    {
      NoDup(knownChats) && Inv(lastAlert, fired, cooldown)
    }

    ghost function State(): Cycle
      reads this
    {
      Cycle(lastAlert, outbox, fired)
    }

    /** Process start: no chats, an empty cooldown table, nothing sent. */
    constructor (cooldown: int)
      ensures Valid() && this.cooldown == cooldown
      ensures knownChats == [] && lastAlert == map[] && outbox == [] && fired == []
    {
      this.cooldown := cooldown;
      knownChats, lastAlert, outbox, fired := [], map[], [], [];
    }

    /** track_alert: record `now` for (labId, kind); every other entry stays as it was. */
    method TrackAlert(labId: LabId, kind: Kind, now: int)
      modifies this`lastAlert
      ensures lastAlert == Track(old(lastAlert), (labId, kind), now)
      ensures forall key :: key != (labId, kind) ==> Lookup(lastAlert, key) == Lookup(old(lastAlert), key)
    {
      lastAlert := lastAlert[(labId, kind) := now];
    }

    /** `for chat in KNOWN_CHATS: bot.sendMessage(chat, msg)`. */
    method Notify(a: Alert)
      modifies this`outbox
      ensures outbox == old(outbox) + Fanout(knownChats, a)
    {
      var k := 0;
      while k < |knownChats|
        invariant 0 <= k <= |knownChats|
        invariant outbox == old(outbox) + Fanout(knownChats[..k], a)
      {
        assert knownChats[..k + 1][..k] == knownChats[..k];
        outbox := outbox + [Notification(knownChats[k], a)];
        k := k + 1;
      }
      assert knownChats[..k] == knownChats;
    }

    /** One firing: notify every known chat, then track_alert; the firing is logged. */
    method Raise(a: Alert, now: int)
      modifies this`outbox, this`lastAlert, this`fired
      ensures State() == Fire(old(State()), Env(knownChats, cooldown, now), a)
    {
      Notify(a);
      TrackAlert(a.lab, a.kind, now);
      fired := fired + [Firing(a, now)];
    }

    /** The body of the sensor loop of poll_alerts: the four guarded checks of one sensor of lab `labId`. */
    method CheckSensor(labId: LabId, thr: Thresholds, sensor: Sensor, now: int)
      modifies this`outbox, this`lastAlert, this`fired
      ensures State() == SensorStep(old(State()), Env(knownChats, cooldown, now), labId, thr, sensor)
    {
      ghost var env := Env(knownChats, cooldown, now);
      var rd := ReadingOf(sensor);
      var sid := sensor.sensorId;
      ghost var c1 := Guard(State(), env, labId, thr, sensor, THigh);
      ghost var c2 := Guard(c1, env, labId, thr, sensor, TLow);
      ghost var c3 := Guard(c2, env, labId, thr, sensor, HHigh);
      if rd.t.Some? {
        var t := rd.t.value;
        if t > thr.tHigh.GetOr(DEFAULT_HIGH) && ShouldAlert(lastAlert, cooldown, (labId, THigh), now) {
          Raise(Alert(labId, THigh, sid, t, thr.tHigh), now);
        }
        assert State() == c1;
        if t < thr.tLow.GetOr(DEFAULT_LOW) && ShouldAlert(lastAlert, cooldown, (labId, TLow), now) {
          Raise(Alert(labId, TLow, sid, t, thr.tLow), now);
        }
      }
      assert State() == c2;
      if rd.h.Some? {
        var h := rd.h.value;
        if h > thr.hHigh.GetOr(DEFAULT_HIGH) && ShouldAlert(lastAlert, cooldown, (labId, HHigh), now) {
          Raise(Alert(labId, HHigh, sid, h, thr.hHigh), now);
        }
        assert State() == c3;
        if h < thr.hLow.GetOr(DEFAULT_LOW) && ShouldAlert(lastAlert, cooldown, (labId, HLow), now) {
          Raise(Alert(labId, HLow, sid, h, thr.hLow), now);
        }
      }
    }

    /**
     * One iteration of poll_alerts on the snapshot `labs` at clock reading `now`.  With no
     * known chat nothing is fetched and nothing changes; otherwise the labs, their sensors and
     * the four guards are evaluated in order, exactly as LabsPass describes.
     */
    method PollOnce(labs: seq<Lab>, now: int) returns (fetched: bool)
      requires Valid()
      modifies this`outbox, this`lastAlert, this`fired
      ensures Valid()
      ensures fetched <==> knownChats != []
      ensures !fetched ==> State() == old(State())
      ensures fetched ==> State() == LabsPass(old(State()), Env(knownChats, cooldown, now), labs)
    {
      if knownChats == [] {
        return false;
      }
      fetched := true;
      ghost var c0 := State();
      ghost var env := Env(knownChats, cooldown, now);
      var i := 0;
      while i < |labs|
        invariant 0 <= i <= |labs|
        invariant State() == LabsPass(c0, env, labs[..i])
      {
        var lab := labs[i];
        var j := 0;
        while j < |lab.sensors|
          invariant 0 <= j <= |lab.sensors|
          invariant State() == SensorsPass(LabsPass(c0, env, labs[..i]), env, lab.labId, lab.thresholds, lab.sensors[..j])
        {
          CheckSensor(lab.labId, lab.thresholds, lab.sensors[j], now);
          assert lab.sensors[..j + 1][..j] == lab.sensors[..j];
          j := j + 1;
        }
        assert lab.sensors[..j] == lab.sensors;
        assert labs[..i + 1][..i] == labs[..i];
        i := i + 1;
      }
      assert labs[..i] == labs;
      LabsPassPreservesInv(c0, env, labs);
    }

    /**
     * The handler on one tokenised message from `chatId`: the decision of Commands.Translate;
     * /start and /help add the chat to the known chats, no other message changes them.
     */
    method Handle(parts: seq<string>, chatId: ChatId) returns (d: Commands.Decision)
      requires Valid()
      modifies this`knownChats
      ensures Valid()
      ensures d == Commands.Translate(parts, chatId)
      ensures Members(knownChats) == if d.Help? then Members(old(knownChats)) + {chatId} else Members(old(knownChats))
      ensures knownChats == if d.Help? && chatId !in old(knownChats) then old(knownChats) + [chatId] else old(knownChats)
    {
      d := Commands.Translate(parts, chatId);
      if d.Help? && chatId !in knownChats {
        knownChats := knownChats + [chatId];
        assert Members(knownChats) == Members(old(knownChats)) + {chatId} by {
          assert forall i :: 0 <= i < |old(knownChats)| ==> knownChats[i] == old(knownChats)[i];
          assert knownChats[|knownChats| - 1] == chatId;
        }
      }
    }
  }
}
