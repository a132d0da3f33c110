/** The session gate: the daily trading window and the logon/logout state
    machine driven by the once-a-second time check. */
module Session {
  import opened Orders

  /** A daily window with inclusive bounds, fixed at construction. */
  datatype Window = Window(start: TimeOfDay, end: TimeOfDay)

  /** Naive time-of-day comparison; a window whose start is after its end
      does not wrap past midnight. */
  predicate Allowed(w: Window, now: TimeOfDay) {
    w.start <= now <= w.end
  }

  /** Both bounds belong to a well-formed window. */
  lemma AllowedInclusive(w: Window)
    ensures w.start <= w.end ==> Allowed(w, w.start) && Allowed(w, w.end)
    ensures w.start <= w.end <==> exists now: TimeOfDay :: Allowed(w, now)
  {
    if w.start <= w.end {
      assert Allowed(w, w.start);
    }
  }

  /** An inverted window is closed all day long. */
  lemma InvertedWindowNeverOpen(w: Window, now: TimeOfDay)
    requires w.start > w.end
    ensures !Allowed(w, now)
  {
  }

  datatype Event = Logon | Logout

  /** What one time check leaves behind: the new logged-in flag and the
      notification it sent, if any. */
  datatype Check = Check(loggedIn: bool, event: Option<Event>)

  /** One pass of the time-check loop at time of day `now`. */
  function CheckTime(w: Window, loggedIn: bool, now: TimeOfDay): (r: Check)
    ensures r.loggedIn == Allowed(w, now)
    ensures r.event == Some(Logon) <==> Allowed(w, now) && !loggedIn
    ensures r.event == Some(Logout) <==> !Allowed(w, now) && loggedIn
    ensures r.event == None <==> r.loggedIn == loggedIn
  {
    if Allowed(w, now) then
      if !loggedIn then Check(true, Some(Logon)) else Check(loggedIn, None)
    else
      if loggedIn then Check(false, Some(Logout)) else Check(loggedIn, None)
  }

  /** Successive time checks at the times of day `nows`, starting from
      `loggedIn`: the final flag and the notifications sent, in order. */
  function Gate(w: Window, loggedIn: bool, nows: seq<TimeOfDay>): (bool, seq<Event>)
    decreases |nows|
  {
    if |nows| == 0 then (loggedIn, [])
    else
      var c := CheckTime(w, loggedIn, nows[0]);
      var rest := Gate(w, c.loggedIn, nows[1..]);
      (rest.0, (if c.event.Some? then [c.event.value] else []) + rest.1)
  }

  /** Notifications alternate, and the first one undoes the starting state. */
  predicate Alternating(loggedIn: bool, evs: seq<Event>) {
    && (|evs| > 0 ==> evs[0] == (if loggedIn then Logout else Logon))
    && forall i :: 0 <= i < |evs| - 1 ==> evs[i] != evs[i + 1]
  }

  /** The flag left behind is the one the last notification set, and it
      agrees with the window at the last check. */
  lemma {:induction false} GateFinal(w: Window, loggedIn: bool, nows: seq<TimeOfDay>)
    ensures var evs := Gate(w, loggedIn, nows).1;
      Gate(w, loggedIn, nows).0 == if |evs| == 0 then loggedIn else evs[|evs| - 1] == Logon
    ensures |nows| > 0 ==> Gate(w, loggedIn, nows).0 == Allowed(w, nows[|nows| - 1])
    decreases |nows|
  {
    if |nows| > 0 {
      var c := CheckTime(w, loggedIn, nows[0]);
      GateFinal(w, c.loggedIn, nows[1..]);
      if |nows| > 1 {
        assert nows[1..][|nows[1..]| - 1] == nows[|nows| - 1];
      }
    }
  }

  /** Logon and logout alternate, and the first notification undoes the
      starting state. */
  lemma {:induction false} GateAlternates(w: Window, loggedIn: bool, nows: seq<TimeOfDay>)
    ensures Alternating(loggedIn, Gate(w, loggedIn, nows).1)
    decreases |nows|
  {
    if |nows| > 0 {
      var c := CheckTime(w, loggedIn, nows[0]);
      GateAlternates(w, c.loggedIn, nows[1..]);
      var rest := Gate(w, c.loggedIn, nows[1..]).1;
      if c.event.Some? {
        var evs := [c.event.value] + rest;
        assert Gate(w, loggedIn, nows).1 == evs;
        assert c.event.value == Logon <==> c.loggedIn;
        assert |rest| > 0 ==> rest[0] == (if c.loggedIn then Logout else Logon);
        forall i | 0 <= i < |evs| - 1 ensures evs[i] != evs[i + 1] {
          if i > 0 {
            assert evs[i] == rest[i - 1] && evs[i + 1] == rest[i];
          }
        }
      } else {
        assert Gate(w, loggedIn, nows).1 == rest;
      }
    }
  }

  /** The gate thread starts logged out, so the k-th notification is a logon
      exactly when k is even. */
  lemma {:induction false} LogonFirst(w: Window, nows: seq<TimeOfDay>)
    ensures var evs := Gate(w, false, nows).1;
      forall k :: 0 <= k < |evs| ==> (evs[k] == Logon <==> k % 2 == 0)
  {
    var evs := Gate(w, false, nows).1;
    GateAlternates(w, false, nows);
    forall k | 0 <= k < |evs| ensures evs[k] == Logon <==> k % 2 == 0 {
      AlternatingParity(evs, k);
    }
  }

  lemma {:induction false} AlternatingParity(evs: seq<Event>, k: nat)
    requires Alternating(false, evs)
    requires k < |evs|
    ensures evs[k] == Logon <==> k % 2 == 0
  {
    if k > 0 {
      AlternatingParity(evs, k - 1);
      assert evs[k - 1] != evs[k];
    }
  }

  /** The window the gateway gets when none is configured: 00:00 to 23:59,
      which is also the window of the simulation driver, commented there as
      round-the-clock. */
  const DefaultWindow: Window := Window(At(0, 0, 0, 0), At(23, 59, 0, 0))

  /** The default window is closed for the last minute of the day: at
      23:59:30 requests are rejected and the gate logs out. */
  lemma DefaultWindowMissesLastMinute()
    ensures !Allowed(DefaultWindow, At(23, 59, 30, 0))
    ensures Allowed(DefaultWindow, At(23, 59, 0, 0))
    ensures CheckTime(DefaultWindow, true, At(23, 59, 30, 0)).event == Some(Logout)
  {
  }

  /** The window that covers the whole day, up to 23:59:59.999999. */
  const FullDayWindow: Window := Window(0, MicrosPerDay - 1)

  lemma FullDayWindowAlwaysOpen(now: TimeOfDay)
    ensures Allowed(FullDayWindow, now)
    ensures CheckTime(FullDayWindow, true, now).event == None
  {
  }
}
