/**
  What the tab has stored: over any run of tab and server it is exactly what
  the last token response brought, unless storage was cleared after it; and
  what a refresh presents is what was stored when its flight began.
 */
module TabSessions {
  import opened Wrappers
  import opened Domain
  import opened TokenProtocol
  import opened TokenInvariants
  import opened SpaRefresh

  // ---- runs, from their end ----

  lemma {:induction false} LastEvent(w: World, events: seq<Event>)
    requires PossibleRun(w, events) && events != []
    ensures var n := |events| - 1;
            && PossibleRun(w, events[..n]) && Possible(After(w, events[..n]), events[n])
            && After(w, events) == Next(After(w, events[..n]), events[n])
    decreases |events|
  {
    hide Possible, Next;
    var n := |events| - 1;
    if n == 0 {
      assert events[..0] == [] && events[1..] == [];
    } else {
      LastEvent(Next(w, events[0]), events[1..]);
      assert events[..n][1..] == events[1..][..n - 1];
    }
  }

  // ---- the stored session ----

  /** The request whose response the event delivers. */
  function Delivers(w: World, e: Event): Option<RequestId>
    requires Possible(w, e)
  {
    match e
    case Response(_) => Some(w.tab.inFlight.r)
    case CodeResponse(r, _) => Some(r)
    case _ => None
  }

  /** The session a response with tokens brings: its refresh token, if it has one, and the expiry computed from it. */
  function Brings(w: World, e: Event): Option<StoredSession>
    requires Possible(w, e)
  {
    var r := Delivers(w, e);
    if r.None? || !w.server.procs[r.value].reply.Granted? then None
    else
      var refresh := w.server.procs[r.value].reply.refresh;
      Some(StoredSession(if refresh.Some? then Some(refresh.value.hash.value) else None, e.expiresAt))
  }

  /** What the last response that brought a session brought, unless storage was cleared after it. */
  ghost function LastBrought(w: World, events: seq<Event>): Option<StoredSession>
    requires PossibleRun(w, events)
    decreases |events|
  {
    if events == [] then None
    else
      LastEvent(w, events);
      var before, e := events[..|events| - 1], events[|events| - 1];
      if e.ClearStorage? then None
      else if Brings(After(w, before), e).Some? then Brings(After(w, before), e)
      else LastBrought(w, before)
  }

  /** One event: the stored session is what it brings, goes only when storage is cleared, and else stays. */
  lemma EventStores(w: World, e: Event)
    requires Possible(w, e) && Good(w)
    ensures Next(w, e).tab.stored ==
              if e.ClearStorage? then None else if Brings(w, e).Some? then Brings(w, e) else w.tab.stored
  {
    hide Inv, Unspent, NoReuse, Separate, ServerInv;
    if e.Response? && w.server.procs[w.tab.inFlight.r].reply.Granted? {
      RefreshResponsesRotate(w.server, w.tab.inFlight.r);
    }
  }

  /**
    After a granted refresh the tab stores the refresh token of that reply
    with the expiry of its access token; after a failed one it stores what it
    stored before; and either way the flight is over.
   */
  lemma ResponseStores(w: World, expiresAt: Time)
    requires Possible(w, Response(expiresAt)) && Good(w)
    ensures var tab', reply := Next(w, Response(expiresAt)).tab, w.server.procs[w.tab.inFlight.r].reply;
            && (reply.Granted? ==> reply.refresh.Some? && tab'.stored.Some? && tab'.stored.value.refreshToken.Some?
                                   && HashToken(tab'.stored.value.refreshToken.value) == reply.refresh.value.hash
                                   && tab'.stored.value.expiresAt == expiresAt)
            && (!reply.Granted? ==> tab'.stored == w.tab.stored)
            && tab'.inFlight == Settled
  {
    hide Inv, Unspent, NoReuse, Separate, ServerInv;
    EventStores(w, Response(expiresAt));
    if w.server.procs[w.tab.inFlight.r].reply.Granted? { RefreshResponsesRotate(w.server, w.tab.inFlight.r); }
  }

  lemma {:induction false} StoredFollows(w: World, events: seq<Event>)
    requires PossibleRun(w, events) && Good(w) && w.tab.stored.None?
    ensures After(w, events).tab.stored == LastBrought(w, events)
    decreases |events|
  {
    hide Good, Possible, Next, Brings;
    if events != [] {
      var before := events[..|events| - 1];
      LastEvent(w, events);
      StoredFollows(w, before);
      EventsKeep(w, before);
      EventStores(After(w, before), events[|events| - 1]);
    }
  }

  /**
    Over any run of a fresh tab and the server, the stored session is exactly
    the last one a response brought, or none if there was none or storage was
    cleared after it.
   */
  lemma StoredIsLastBrought(w: World, events: seq<Event>)
    requires FreshTab(w) && PossibleRun(w, events)
    ensures After(w, events).tab.stored == LastBrought(w, events)
  {
    hide Good;
    FreshTabIsGood(w);
    StoredFollows(w, events);
  }

  /** So a session is lost only by clearing the storage. */
  lemma {:induction false} SessionsLast(w: World, events: seq<Event>)
    requires PossibleRun(w, events) && Good(w) && ClearStorage !in events && w.tab.stored.Some?
    ensures After(w, events).tab.stored.Some?
    decreases |events|
  {
    hide Good, Possible, Next, Brings;
    if events != [] {
      EventStores(w, events[0]);
      EventKeeps(w, events[0]);
      SessionsLast(Next(w, events[0]), events[1..]);
    }
  }

  // ---- flights ----

  /** The session whose refresh is in flight: the one stored when a caller found no flight and a token to refresh with. */
  ghost function Flight(w: World, events: seq<Event>): Option<StoredSession>
    requires PossibleRun(w, events)
    decreases |events|
  {
    if events == [] then None
    else
      LastEvent(w, events);
      var before, e := events[..|events| - 1], events[|events| - 1];
      var tab := After(w, before).tab;
      if e.Finally? then None
      else if e.Caller? && Flight(w, before).None? then
        if tab.stored.Some? && tab.stored.value.refreshToken.Some? && tab.stored.value.refreshToken.value != ""
        then tab.stored else None
      else Flight(w, before)
  }

  ghost predicate Flies(tab: Tab, flight: Option<StoredSession>) {
    && (tab.inFlight.Idle? <==> flight.None?)
    && (tab.inFlight.Discovering? || tab.inFlight.Waiting? ==> flight == Some(tab.inFlight.session))
  }

  lemma {:induction false} FlightFollows(w: World, events: seq<Event>)
    requires PossibleRun(w, events) && w.tab.inFlight.Idle?
    ensures Flies(After(w, events).tab, Flight(w, events))
    decreases |events|
  {
    if events != [] {
      hide PossibleRun, After, Apply;
      LastEvent(w, events);
      FlightFollows(w, events[..|events| - 1]);
    }
  }

  /**
    The request a flight sends asks to refresh the token that was stored when
    the flight began, for this client, with its whole scope.
   */
  lemma FlightPresentsStored(w: World, events: seq<Event>, r: RequestId, clientID: string)
    requires FreshTab(w) && PossibleRun(w, events) && Possible(After(w, events), Discovered(r, clientID))
    ensures Flight(w, events).Some? && Flight(w, events).value.refreshToken.Some?
    ensures var s' := Next(After(w, events), Discovered(r, clientID)).server;
            r in s'.procs && s'.procs[r] == Arrived(TokenCall(TokenRequest(
              "refresh_token", "", "", clientID, "", "", Flight(w, events).value.refreshToken.value, "")))
  {
    FlightFollows(w, events);
    hide PossibleRun, After, Flight;
  }
}
