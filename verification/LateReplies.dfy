/** The browser's loaders: requests are numbered, replies arrive in any order, and a reply counts only while it is still the
    answer to what the page shows. */
module LateReplies {
  import opened Basics

  datatype LoadState = Idle | Loading | Ready | Failed

  /** A suspended loadProjectInvoices: what its closure remembers. */
  datatype ProjectLoad = ProjectLoad(session: nat, project: string)

  /** A suspended loadInvoices, or a search timer that has not fired yet. */
  datatype ListLoad = ListLoad(session: nat, query: string)

  /** The project picker of the reimbursement form and the invoices loaded for it. */
  datatype Panel = Panel(
    selected: string, request: nat, state: LoadState, error: string, list: seq<string>, loads: map<nat, ProjectLoad>)

  /** The invoice list and its search box. */
  datatype Listing = Listing(request: nat, query: string, list: seq<string>, loads: map<nat, ListLoad>, timer: Option<ListLoad>)

  datatype Page = Page(session: nat, principal: Option<string>, panel: Panel, listing: Listing)

  datatype Event =
    | SelectProject(project: string)
    | ClearSelection
    | SubmitSucceeded
    | RenderOptions(available: set<string>)
    | ProjectReply(request: nat, list: seq<string>)
    | ProjectError(request: nat, message: string)
    | RefreshList
    | SearchInput(text: string)
    | SearchTimer
    | ListReply(request: nat, list: seq<string>)
    | ListError(request: nat)
    | Login(user: string) // also registration
    | Resume(user: string) // the reply to the first /auth/me
    | Logout

  const OPENED := Page(0, None, Panel("", 0, Idle, "", [], map[]), Listing(0, "", [], map[], None))

  // ----- what each event does -----

  /** loadProjectInvoices up to its await. */
  function StartProjectLoad(s: Page, project: string): Page {
    var n := s.panel.request + 1;
    var loads := if project == "" then s.panel.loads else s.panel.loads[n := ProjectLoad(s.session, project)];
    s.(panel := Panel(s.panel.selected, n, if project == "" then Idle else Loading, "", [], loads))
  }

  /** The closure `current` of loadProjectInvoices. */
  predicate ProjectCurrent(s: Page, n: nat) {
    && n in s.panel.loads && n == s.panel.request && s.panel.loads[n].session == s.session
    && s.principal.Some? && s.panel.selected == s.panel.loads[n].project
  }

  /** loadInvoices up to its await. */
  function StartListLoad(s: Page): Page {
    if s.principal.None? then s else
      var n := s.listing.request + 1;
      s.(listing := s.listing.(request := n, loads := s.listing.loads[n := ListLoad(s.session, s.listing.query)]))
  }

  /** The closure `current` of loadInvoices. */
  predicate ListCurrent(s: Page, n: nat) {
    n in s.listing.loads && n == s.listing.request && s.listing.loads[n].session == s.session && s.principal.Some?
  }

  /** The call is no longer suspended. */
  function Settled(s: Page, n: nat): Panel { s.panel.(loads := s.panel.loads - {n}) }

  function Step(s: Page, e: Event): Page {
    match e
    case SelectProject(p) => StartProjectLoad(s.(panel := s.panel.(selected := p)), p)
    case ClearSelection =>
      s.(panel := s.panel.(selected := "", list := [], request := s.panel.request + 1, state := Idle))
    case SubmitSucceeded => StartProjectLoad(s.(panel := s.panel.(selected := "")), "")
    case RenderOptions(available) =>
      if s.panel.selected in available && s.panel.selected != "" then StartProjectLoad(s, s.panel.selected)
      else s.(panel := s.panel.(selected := ""))
    case ProjectReply(n, list) =>
      s.(panel := if ProjectCurrent(s, n) then Settled(s, n).(list := list, state := Ready) else Settled(s, n))
    case ProjectError(n, message) =>
      s.(panel := if ProjectCurrent(s, n) then Settled(s, n).(state := Failed, error := message) else Settled(s, n))
    case RefreshList => StartListLoad(s)
    case SearchInput(text) =>
      s.(listing := s.listing.(request := s.listing.request + 1, timer := Some(ListLoad(s.session, text))))
    case SearchTimer =>
      if s.listing.timer.None? then s
      else
        var armed := s.listing.timer.value;
        var disarmed := s.(listing := s.listing.(timer := None));
        if armed.session != s.session || s.principal.None? then disarmed
        else StartListLoad(disarmed.(listing := disarmed.listing.(query := armed.query)))
    case ListReply(n, list) =>
      var listing := s.listing.(loads := s.listing.loads - {n});
      s.(listing := if ListCurrent(s, n) then listing.(list := list) else listing)
    case ListError(n) => s.(listing := s.listing.(loads := s.listing.loads - {n}))
    case Login(user) => s.(principal := Some(user), session := s.session + 1)
    case Resume(user) => s.(principal := Some(user))
    case Logout =>
      Page(s.session + 1, None, Panel("", s.panel.request + 1, Idle, "", [], s.panel.loads),
           Listing(s.listing.request + 1, "", [], s.listing.loads, None))
  }

  /** The page after any sequence of events. */
  function Run(events: seq<Event>): Page
    decreases |events|
  {
    if events == [] then OPENED else Step(Run(events[..|events| - 1]), events[|events| - 1])
  }

  lemma RunSnoc(events: seq<Event>, e: Event)
    ensures Run(events + [e]) == Step(Run(events), e)
    ensures forall k :: 0 <= k <= |events| ==> (events + [e])[..k] == events[..k]
  {
    assert (events + [e])[..|events|] == events;
  }

  lemma RunOfFour(a: Event, b: Event, c: Event, d: Event)
    ensures Run([a, b, c, d]) == Step(Step(Step(Step(OPENED, a), b), c), d)
  {
    hide Step, Run;
    assert [] + [a] == [a] && [a] + [b] == [a, b] && [a, b] + [c] == [a, b, c] && [a, b, c] + [d] == [a, b, c, d];
    RunNothing();
    RunSnoc([], a);
    RunSnoc([a], b);
    RunSnoc([a, b], c);
    RunSnoc([a, b, c], d);
  }

  lemma RunNothing()
    ensures Run([]) == OPENED
  {}

  lemma SessionStep(s: Page, e: Event)
    ensures s.session <= Step(s, e).session
    ensures !e.Logout? && s.principal.Some? ==> Step(s, e).principal.Some?
    ensures Step(s, e).session == s.session ==> Step(s, e).principal == if e.Resume? then Some(e.user) else s.principal
  {}

  // ----- the loader of project invoices -----

  /** The project whose invoices the event asks the server for ("" asks for none). */
  function Asks(s: Page, e: Event): Option<string> {
    match e
    case SelectProject(p) => Some(p)
    case SubmitSucceeded => Some("")
    case RenderOptions(available) => if s.panel.selected in available && s.panel.selected != "" then Some(s.panel.selected) else None
    case _ => None
  }

  /** Events after which no earlier reply may be shown. */
  predicate Supersedes(s: Page, e: Event) { Asks(s, e).Some? || e.ClearSelection? || e.Logout? }

  /** Event i asked for `project` in `session`, and nothing has superseded it since. */
  ghost predicate Latest(events: seq<Event>, i: nat, project: string, session: nat) {
    && i < |events|
    && Asks(Run(events[..i]), events[i]) == Some(project)
    && Run(events[..i]).session == session
    && forall k :: i < k < |events| ==> !Supersedes(Run(events[..k]), events[k])
  }

  lemma StaysLatest(events: seq<Event>, e: Event, i: nat, project: string, session: nat)
    requires Latest(events, i, project, session) && !Supersedes(Run(events), e)
    ensures Latest(events + [e], i, project, session)
  {
    hide Run, Supersedes;
    RunSnoc(events, e);
    var more := events + [e];
    assert more[..|events|] == events;
    forall k | i < k < |more| ensures !Supersedes(Run(more[..k]), more[k]) {
      if k < |events| { assert more[..k] == events[..k]; }
    }
  }

  lemma BecomesLatest(events: seq<Event>, e: Event, project: string)
    requires Asks(Run(events), e) == Some(project)
    ensures Latest(events + [e], |events|, project, Run(events).session)
  {
    assert (events + [e])[..|events|] == events;
  }

  /** The invoices on the page are the reply that event j brought to the latest load, which event i issued. */
  ghost predicate AnsweredBy(events: seq<Event>, i: nat, j: nat, project: string) {
    && i < j < |events|
    && Latest(events, i, project, Run(events[..j]).session)
    && Run(events[..j]).panel.selected == project && Run(events[..j]).principal.Some?
    && events[j] == ProjectReply(Run(events).panel.request, Run(events).panel.list)
  }

  ghost predicate HasLatest(events: seq<Event>, project: string, session: nat) {
    exists i :: Latest(events, i, project, session)
  }

  ghost predicate HasAnswer(events: seq<Event>, project: string) {
    exists i, j :: AnsweredBy(events, i, j, project)
  }

  predicate Replies(e: Event, n: nat) { (e.ProjectReply? || e.ProjectError?) && e.request == n }

  /** A reply or an error for load n has come since event i. */
  ghost predicate Replied(events: seq<Event>, i: nat, n: nat) {
    exists k :: i < k < |events| && Replies(events[k], n)
  }

  /** The page waits for the load of event i: its reply is still to come, or came when it could not count. */
  ghost predicate Awaits(events: seq<Event>, i: nat, project: string, session: nat) {
    && Latest(events, i, project, session) && project != ""
    && var s, n := Run(events), Run(events).panel.request;
       && session <= s.session && (s.panel.selected == project || s.panel.selected == "")
       && (if Replied(events, i, n)
           then n !in s.panel.loads && (s.panel.selected == "" || session < s.session || Run(events[..i]).principal.None?)
           else n in s.panel.loads && s.panel.loads[n] == ProjectLoad(session, project))
  }

  ghost predicate IsAwaited(events: seq<Event>) {
    exists i: nat, project: string, session: nat :: Awaits(events, i, project, session)
  }

  ghost predicate ProjectLoadsSound(events: seq<Event>) {
    var s := Run(events);
    && (forall n :: n in s.panel.loads ==> n <= s.panel.request)
    && (s.panel.request in s.panel.loads ==> s.panel.state.Loading?)
    && (s.panel.state.Loading? ==> IsAwaited(events))
    && (s.panel.state.Ready? ==>
          exists q :: q != "" && HasAnswer(events, q) && (s.panel.selected == q || s.panel.selected == ""))
  }

  lemma StaysAnswered(events: seq<Event>, e: Event, q: string)
    requires HasAnswer(events, q) && !Supersedes(Run(events), e)
    requires Step(Run(events), e).panel.request == Run(events).panel.request
    requires Step(Run(events), e).panel.list == Run(events).panel.list
    ensures HasAnswer(events + [e], q)
  {
    hide Step, Run, Supersedes, Latest;
    var i: nat, j: nat :| AnsweredBy(events, i, j, q);
    RunSnoc(events, e);
    StaysLatest(events, e, i, q, Run(events[..j]).session);
    assert AnsweredBy(events + [e], i, j, q);
  }

  lemma BecomesAnswered(events: seq<Event>, n: nat, list: seq<string>, i: nat, q: string)
    requires ProjectCurrent(Run(events), n) && q == Run(events).panel.selected
    requires Latest(events, i, q, Run(events).session)
    ensures HasAnswer(events + [ProjectReply(n, list)], q)
  {
    LatestIsEarlier(events, i, q, Run(events).session);
    hide Run, Latest;
    var e := ProjectReply(n, list);
    RunSnoc(events, e);
    StaysLatest(events, e, i, q, Run(events).session);
    assert (events + [e])[..|events|] == events;
    assert AnsweredBy(events + [e], i, |events|, q);
  }

  lemma LatestIsEarlier(events: seq<Event>, i: nat, q: string, session: nat)
    requires Latest(events, i, q, session)
    ensures i < |events|
  {}

  lemma LatestSupersedes(events: seq<Event>, i: nat, p: string, session: nat)
    requires Latest(events, i, p, session)
    ensures i < |events| && Supersedes(Run(events[..i]), events[i])
  {}

  lemma LatestIsUnique(events: seq<Event>, i: nat, p: string, session: nat, j: nat, q: string, session': nat)
    requires Latest(events, i, p, session) && Latest(events, j, q, session')
    ensures i == j && p == q && session == session'
  {
    LatestSupersedes(events, i, p, session);
    LatestSupersedes(events, j, q, session');
    hide Run, Asks, Supersedes;
  }

  /** Until a load is superseded, whoever is logged in stays logged in. */
  lemma {:induction false} LoginLasts(events: seq<Event>, i: nat, j: nat, project: string, session: nat)
    requires Latest(events, i, project, session) && Run(events[..i]).principal.Some? && i <= j <= |events|
    ensures Run(events[..j]).principal.Some?
    decreases j
  {
    hide Step;
    if j > i {
      LoginLasts(events, i, j - 1, project, session);
      assert events[..j][..j - 1] == events[..j - 1];
      SessionStep(Run(events[..j - 1]), events[j - 1]);
      assert j - 1 > i ==> !Supersedes(Run(events[..j - 1]), events[j - 1]);
    }
  }

  lemma RepliedSnoc(events: seq<Event>, e: Event, i: nat, n: nat)
    requires i < |events|
    ensures Replied(events + [e], i, n) <==> Replied(events, i, n) || Replies(e, n)
  {
    hide Replies;
    var more := events + [e];
    assert more[|events|] == e;
    if Replied(events, i, n) {
      var k :| i < k < |events| && Replies(events[k], n);
      assert Replies(more[k], n);
    }
  }

  /** What one event does to a wait that it neither supersedes nor ends. */
  lemma WaitStep(s: Page, e: Event)
    requires !Supersedes(s, e) && s.panel.state.Loading? && Step(s, e).panel.state.Loading?
    ensures var s' := Step(s, e);
            && s'.panel.request == s.panel.request
            && (s'.panel.selected == s.panel.selected || s'.panel.selected == "")
            && (s.panel.request in s'.panel.loads <==> s.panel.request in s.panel.loads && !Replies(e, s.panel.request))
            && (s.panel.request in s'.panel.loads ==> s'.panel.loads[s.panel.request] == s.panel.loads[s.panel.request])
            && (Replies(e, s.panel.request) ==> !ProjectCurrent(s, s.panel.request) && s'.panel.selected == s.panel.selected)
  {}

  lemma StaysAwaited(events: seq<Event>, e: Event, i: nat, project: string, session: nat)
    requires Awaits(events, i, project, session) && !Supersedes(Run(events), e)
    requires Run(events).panel.state.Loading? && Step(Run(events), e).panel.state.Loading?
    ensures Awaits(events + [e], i, project, session)
  {
    LatestIsEarlier(events, i, project, session);
    if Run(events[..i]).principal.Some? {
      LoginLasts(events, i, |events|, project, session);
      assert events[..|events|] == events;
    }
    hide Run, Latest, Supersedes, Step, Replied, Replies;
    var s := Run(events);
    RunSnoc(events, e);
    SessionStep(s, e);
    WaitStep(s, e);
    StaysLatest(events, e, i, project, session);
    RepliedSnoc(events, e, i, s.panel.request);
  }

  lemma BecomesAwaited(events: seq<Event>, e: Event, project: string)
    requires Asks(Run(events), e) == Some(project) && project != ""
    ensures Awaits(events + [e], |events|, project, Run(events).session)
  {
    BecomesLatest(events, e, project);
    hide Run, Latest, Step, Asks;
    RunSnoc(events, e);
    AskStarts(Run(events), e, project);
  }

  lemma AskStarts(s: Page, e: Event, project: string)
    requires Asks(s, e) == Some(project) && project != ""
    ensures var s' := Step(s, e);
            && s'.session == s.session && s'.panel.selected == project
            && s'.panel.request in s'.panel.loads && s'.panel.loads[s'.panel.request] == ProjectLoad(s.session, project)
  {}

  lemma ProjectLoadsStep(events: seq<Event>, e: Event)
    requires ProjectLoadsSound(events)
    ensures ProjectLoadsSound(events + [e])
  {
    hide Run, HasAnswer, Awaits;
    var s, s' := Run(events), Step(Run(events), e);
    RunSnoc(events, e);
    if Asks(s, e).Some? {
      if Asks(s, e).value != "" { BecomesAwaited(events, e, Asks(s, e).value); }
    } else if !Supersedes(s, e) {
      if s'.panel.state.Loading? {
        var i: nat, project: string, session: nat :| Awaits(events, i, project, session);
        StaysAwaited(events, e, i, project, session);
      } else if e.ProjectReply? && ProjectCurrent(s, e.request) {
        var i: nat, project: string, session: nat :| Awaits(events, i, project, session);
        AwaitedLoad(events, i, project, session);
        BecomesAnswered(events, e.request, e.list, i, s.panel.selected);
        assert e == ProjectReply(e.request, e.list);
      } else if s'.panel.state.Ready? {
        var q :| q != "" && HasAnswer(events, q) && (s.panel.selected == q || s.panel.selected == "");
        StaysAnswered(events, e, q);
      }
    }
  }

  lemma AwaitedLoad(events: seq<Event>, i: nat, project: string, session: nat)
    requires Awaits(events, i, project, session)
    ensures Latest(events, i, project, session) && project != ""
    ensures var s := Run(events);
            s.panel.request in s.panel.loads ==> s.panel.loads[s.panel.request] == ProjectLoad(session, project)
  {
    hide Run, Latest, Replied;
  }

  lemma NothingLoadedIsSound()
    ensures ProjectLoadsSound([])
  {}

  lemma {:induction false} ProjectLoadsAlwaysSound(events: seq<Event>)
    ensures ProjectLoadsSound(events)
    decreases |events|
  {
    if events == [] {
      NothingLoadedIsSound();
    } else {
      hide ProjectLoadsSound, Run;
      var init := events[..|events| - 1];
      ProjectLoadsAlwaysSound(init);
      ProjectLoadsStep(init, events[|events| - 1]);
      assert init + [events[|events| - 1]] == events;
    }
  }

  /** Whenever the page says 'ready' with a project selected, its list is the reply to the latest load, which asked for
      that project; that reply came in the session of the load, and no other load, clearing or logout followed the load. */
  lemma ReadyShowsLatest(events: seq<Event>)
    requires Run(events).panel.state.Ready? && Run(events).panel.selected != ""
    ensures exists i, j :: AnsweredBy(events, i, j, Run(events).panel.selected)
  {
    hide Run, IsAwaited;
    ProjectLoadsAlwaysSound(events);
  }

  /** A reply, or an error, that changes anything on the page answers the latest load, in the session of that load. */
  lemma NoLateReply(events: seq<Event>, e: Event)
    requires e.ProjectReply? || e.ProjectError?
    requires Step(Run(events), e) != Run(events).(panel := Settled(Run(events), e.request))
    ensures e.request == Run(events).panel.request
    ensures HasLatest(events, Run(events).panel.selected, Run(events).session)
  {
    hide Run, HasAnswer, Awaits;
    ProjectLoadsAlwaysSound(events);
    var i: nat, project: string, session: nat :| Awaits(events, i, project, session);
    AwaitedLoad(events, i, project, session);
  }

  // ----- the loader of the invoice list -----

  /** Event i asked for the list under `query` in `session`, and no other list request, search input or logout followed. */
  ghost predicate LatestQuery(events: seq<Event>, i: nat, query: string, session: nat) {
    && i < |events|
    && (forall k :: i < k < |events| ==> Run(events[..k + 1]).listing.request == Run(events[..k]).listing.request)
    && var before, after := Run(events[..i]), Run(events[..i + 1]);
       && after.listing.request in after.listing.loads && after.listing.request !in before.listing.loads
       && after.listing.loads[after.listing.request] == ListLoad(session, query)
  }

  ghost predicate ListLoadsSound(events: seq<Event>) {
    var s := Run(events);
    && (forall n :: n in s.listing.loads ==> n <= s.listing.request)
    && (s.listing.request in s.listing.loads ==>
          && var load := s.listing.loads[s.listing.request];
             load.query == s.listing.query && exists i :: LatestQuery(events, i, load.query, load.session))
  }

  lemma ListLoadsStep(events: seq<Event>, e: Event)
    requires ListLoadsSound(events)
    ensures ListLoadsSound(events + [e])
  {
    hide Run;
    var more, s, s' := events + [e], Run(events), Step(Run(events), e);
    RunSnoc(events, e);
    assert more[..|events|] == events && more[..|events| + 1] == more;
    if s'.listing.request in s'.listing.loads {
      var load := s'.listing.loads[s'.listing.request];
      if s'.listing.request != s.listing.request {
        assert LatestQuery(more, |events|, load.query, load.session);
      } else {
        var i: nat :| LatestQuery(events, i, load.query, load.session);
        hide Step;
        forall k | i < k < |more| ensures Run(more[..k + 1]).listing.request == Run(more[..k]).listing.request {
          if k < |events| { assert more[..k] == events[..k] && more[..k + 1] == events[..k + 1]; }
        }
        assert more[..i] == events[..i] && more[..i + 1] == events[..i + 1];
        assert LatestQuery(more, i, load.query, load.session);
      }
    }
  }

  lemma {:induction false} ListLoadsAlwaysSound(events: seq<Event>)
    ensures ListLoadsSound(events)
    decreases |events|
  {
    if events != [] {
      var init := events[..|events| - 1];
      ListLoadsAlwaysSound(init);
      ListLoadsStep(init, events[|events| - 1]);
      assert init + [events[|events| - 1]] == events;
    }
  }

  /** A list reply that changes the page answers the latest request, which asked for the query that the page holds now, in
      the present session, and the user has typed nothing into the search box since. */
  lemma ListReplyMatchesQuery(events: seq<Event>, n: nat, list: seq<string>)
    requires Step(Run(events), ListReply(n, list)) != Run(events).(listing := Run(events).listing.(loads := Run(events).listing.loads - {n}))
    ensures n == Run(events).listing.request
    ensures exists i :: LatestQuery(events, i, Run(events).listing.query, Run(events).session)
  {
    hide Run;
    ListLoadsAlwaysSound(events);
  }

  // ----- sessions and principals -----

  lemma {:induction false} SessionsGrow(events: seq<Event>, i: nat)
    requires i <= |events|
    ensures Run(events[..i]).session <= Run(events).session
    decreases |events|
  {
    hide Step;
    if i < |events| {
      var init := events[..|events| - 1];
      assert init[..i] == events[..i];
      SessionsGrow(init, i);
      SessionStep(Run(init), events[|events| - 1]);
    } else {
      assert events[..i] == events;
    }
  }

  /** The user of the last answer to /auth/me from event i on. */
  function LastResume(events: seq<Event>, i: nat): Option<string>
    requires i <= |events|
    decreases |events|
  {
    if i == |events| then None
    else if events[|events| - 1].Resume? then Some(events[|events| - 1].user)
    else LastResume(events[..|events| - 1], i)
  }

  lemma {:induction false} LastResumeIff(events: seq<Event>, i: nat)
    requires i < |events| && !events[i].Resume?
    ensures LastResume(events, i).Some? <==> ResumeSince(events, i)
    decreases |events|
  {
    var init, e := events[..|events| - 1], events[|events| - 1];
    if e.Resume? {
      assert ResumeSince(events, i);
    } else if i < |init| {
      LastResumeIff(init, i);
      if ResumeSince(init, i) {
        var k :| i < k < |init| && init[k].Resume?;
        assert events[k].Resume?;
      }
    }
  }

  /** Within one session the user is the one of the last answer to /auth/me in it, if there was one, and otherwise who it
      was before. */
  lemma {:induction false} SameSessionSameUser(events: seq<Event>, i: nat)
    requires i <= |events| && Run(events[..i]).session == Run(events).session
    ensures Run(events).principal == if LastResume(events, i).Some? then LastResume(events, i) else Run(events[..i]).principal
    decreases |events|
  {
    hide Step;
    if i < |events| {
      var init, e := events[..|events| - 1], events[|events| - 1];
      assert init[..i] == events[..i];
      SessionsGrow(init, i);
      SessionStep(Run(init), e);
      SameSessionSameUser(init, i);
    } else {
      assert events[..i] == events;
    }
  }

  /** So within one session the user stays the same exactly when no such answer comes, or the last one brings the same user. */
  lemma UserKeptIff(events: seq<Event>, i: nat)
    requires i <= |events| && Run(events[..i]).session == Run(events).session
    ensures Run(events).principal == Run(events[..i]).principal <==>
            LastResume(events, i).None? || LastResume(events, i) == Run(events[..i]).principal
  {
    SameSessionSameUser(events, i);
  }

  /** The session counter does not see that answer: a load of one user can be answered on the page of another. */
  lemma ResumeChangesUserWithinSession(list: seq<string>)
    ensures var s := Run([Login("ann"), SelectProject("p"), Resume("bob"), ProjectReply(1, list)]);
            s.session == 1 && s.principal == Some("bob") && s.panel.state.Ready? && s.panel.list == list
  {
    RunOfFour(Login("ann"), SelectProject("p"), Resume("bob"), ProjectReply(1, list));
  }

  // ----- waits -----

  ghost predicate LoginSince(events: seq<Event>, i: nat) { exists k :: i < k < |events| && events[k].Login? }

  ghost predicate ResumeSince(events: seq<Event>, i: nat) { exists k :: i < k < |events| && events[k].Resume? }

  /** The latest load is in flight, and a reply to it now would end the wait. */
  predicate EndedBy(s: Page, list: seq<string>) {
    s.panel.request in s.panel.loads && Step(s, ProjectReply(s.panel.request, list)).panel.state.Ready?
  }

  lemma LatestOfInit(events: seq<Event>, i: nat, project: string, session: nat)
    requires Latest(events, i, project, session) && i < |events| - 1
    ensures Latest(events[..|events| - 1], i, project, session)
    ensures !Supersedes(Run(events[..|events| - 1]), events[|events| - 1])
  {
    hide Run, Supersedes, Asks;
    var init := events[..|events| - 1];
    assert forall k :: 0 <= k < |init| ==> init[..k] == events[..k];
  }

  lemma AskKeepsSession(s: Page, e: Event)
    requires Asks(s, e).Some?
    ensures Step(s, e).session == s.session && !e.Login? && !e.Resume?
  {}

  lemma SessionMoves(s: Page, e: Event)
    requires !Supersedes(s, e)
    ensures Step(s, e).session == s.session + if e.Login? then 1 else 0
  {}

  lemma LatestAtEnd(events: seq<Event>, project: string, session: nat)
    requires events != [] && Latest(events, |events| - 1, project, session)
    ensures Run(events).session == session && !LoginSince(events, |events| - 1)
  {
    hide Step;
    AskKeepsSession(Run(events[..|events| - 1]), events[|events| - 1]);
  }

  lemma LoginSinceSnoc(events: seq<Event>, e: Event, i: nat)
    requires i < |events|
    ensures LoginSince(events + [e], i) <==> LoginSince(events, i) || e.Login?
  {
    var more := events + [e];
    assert more[|events|] == e;
    if LoginSince(events, i) {
      var k :| i < k < |events| && events[k].Login?;
      assert more[k].Login?;
    }
  }

  /** The session of a load is the present one exactly when nobody has logged in since. */
  lemma {:induction false} SessionKeptIff(events: seq<Event>, i: nat, project: string, session: nat)
    requires Latest(events, i, project, session)
    ensures session <= Run(events).session && (session == Run(events).session <==> !LoginSince(events, i))
    decreases |events|
  {
    LatestIsEarlier(events, i, project, session);
    hide Run, Step, Latest, LoginSince, Supersedes;
    var init, e := events[..|events| - 1], events[|events| - 1];
    assert events == init + [e];
    if i == |init| {
      LatestAtEnd(events, project, session);
    } else {
      LatestOfInit(events, i, project, session);
      SessionKeptIff(init, i, project, session);
      SessionMoves(Run(init), e);
      RunSnoc(init, e);
      LoginSinceSnoc(init, e, i);
    }
  }

  /** What a page that waits, with a project selected, waits for. */
  lemma AwaitsTheLatest(events: seq<Event>, i: nat, session: nat)
    requires Run(events).panel.state.Loading? && Run(events).panel.selected != ""
    requires Latest(events, i, Run(events).panel.selected, session)
    ensures Awaits(events, i, Run(events).panel.selected, session)
  {
    hide Run, Latest, Replied;
    ProjectLoadsAlwaysSound(events);
    var j: nat, q: string, session': nat :| Awaits(events, j, q, session');
    LatestIsUnique(events, i, Run(events).panel.selected, session, j, q, session');
  }

  /** There is such a load. */
  lemma WaitHasLoad(events: seq<Event>)
    requires Run(events).panel.state.Loading? && Run(events).panel.selected != ""
    ensures exists i: nat, session: nat :: Latest(events, i, Run(events).panel.selected, session)
  {
    hide Run, Latest, Replied;
    ProjectLoadsAlwaysSound(events);
    var j: nat, q: string, session': nat :| Awaits(events, j, q, session');
    assert Latest(events, j, Run(events).panel.selected, session');
  }

  /** A load that someone logged in has issued is still in flight, and its reply ends the wait, exactly when nobody has
      logged in since. */
  lemma WaitEndsIff(events: seq<Event>, i: nat, session: nat, list: seq<string>)
    requires Run(events).panel.state.Loading? && Run(events).panel.selected != ""
    requires Latest(events, i, Run(events).panel.selected, session) && Run(events[..i]).principal.Some?
    ensures EndedBy(Run(events), list) <==> !LoginSince(events, i)
  {
    hide Run, Latest, Replied, LoginSince;
    AwaitsTheLatest(events, i, session);
    SessionKeptIff(events, i, Run(events).panel.selected, session);
    LatestIsEarlier(events, i, Run(events).panel.selected, session);
    LoginLasts(events, i, |events|, Run(events).panel.selected, session);
    assert events[..|events|] == events;
  }

  /** For a load issued with nobody logged in it is so exactly when the answer to the first /auth/me has come since, nobody
      has logged in since, and no earlier reply has been lost. */
  lemma WaitWithoutUserEndsIff(events: seq<Event>, i: nat, session: nat, list: seq<string>)
    requires Run(events).panel.state.Loading? && Run(events).panel.selected != ""
    requires Latest(events, i, Run(events).panel.selected, session) && Run(events[..i]).principal.None?
    ensures EndedBy(Run(events), list) <==>
            ResumeSince(events, i) && !LoginSince(events, i) && !Replied(events, i, Run(events).panel.request)
  {
    AwaitsTheLatest(events, i, session);
    SessionKeptIff(events, i, Run(events).panel.selected, session);
    LatestIsEarlier(events, i, Run(events).panel.selected, session);
    AskKeepsSession(Run(events[..i]), events[i]);
    if session == Run(events).session {
      SameSessionSameUser(events, i);
      LastResumeIff(events, i);
    }
    hide Run, Latest, Replied, LoginSince;
  }

  /** No reply that can still come counts for the page. */
  predicate Hopeless(s: Page) {
    s.panel.state.Loading? && (s.panel.request !in s.panel.loads || s.panel.loads[s.panel.request].session < s.session)
  }

  /** None of the events that follow is a load, a clearing or a logout. */
  ghost predicate Quiet(events: seq<Event>, more: seq<Event>) {
    forall k :: 0 <= k < |more| ==> !Supersedes(Run(events + more[..k]), more[k])
  }

  lemma HopelessStep(s: Page, e: Event)
    requires Hopeless(s) && !Supersedes(s, e)
    ensures Hopeless(Step(s, e))
  {}

  /** A hopeless wait lasts until a load, a clearing or a logout. */
  lemma {:induction false} HopelessLasts(events: seq<Event>, more: seq<Event>)
    requires Hopeless(Run(events)) && Quiet(events, more)
    ensures Hopeless(Run(events + more))
    decreases |more|
  {
    hide Step, Hopeless, Supersedes;
    if more == [] {
      assert events + more == events;
    } else {
      var init, e := more[..|more| - 1], more[|more| - 1];
      assert Quiet(events, init) by {
        assert forall k :: 0 <= k < |init| ==> init[..k] == more[..k];
      }
      HopelessLasts(events, init);
      HopelessStep(Run(events + init), e);
      RunSnoc(events + init, e);
      assert events + init + [e] == events + more;
    }
  }

  /** A wait with a project selected can be ended without a load, a clearing or a logout exactly when it is not hopeless. */
  lemma WaitCanEndIff(events: seq<Event>)
    requires Run(events).panel.state.Loading? && Run(events).panel.selected != ""
    ensures (exists more :: Quiet(events, more) && !Run(events + more).panel.state.Loading?) <==> !Hopeless(Run(events))
  {
    if Hopeless(Run(events)) {
      forall more | Quiet(events, more) ensures Run(events + more).panel.state.Loading? { HopelessLasts(events, more); }
    } else {
      HopefulWaitEnds(events);
    }
  }

  lemma HopefulWaitEnds(events: seq<Event>)
    requires Run(events).panel.state.Loading? && Run(events).panel.selected != "" && !Hopeless(Run(events))
    ensures exists more :: Quiet(events, more) && !Run(events + more).panel.state.Loading?
  {
    hide Step, Run;
    AwaitedIsSelected(events);
    var s := Run(events);
    var first, last := Resume("user"), ProjectReply(s.panel.request, []);
    var more := [first, last];
    TwoEventsEnd(s);
    RunSnoc(events, first);
    RunSnoc(events + [first], last);
    assert events + more == events + [first] + [last];
    assert more[..0] == [] && more[..1] == [first] && events + [] == events;
    assert Quiet(events, more);
  }

  lemma AwaitedIsSelected(events: seq<Event>)
    requires Run(events).panel.state.Loading? && Run(events).panel.selected != "" && !Hopeless(Run(events))
    ensures var s := Run(events);
            s.panel.request in s.panel.loads && s.panel.loads[s.panel.request] == ProjectLoad(s.session, s.panel.selected)
  {
    hide Run, Latest, Replied, HasAnswer;
    ProjectLoadsAlwaysSound(events);
    var i: nat, project: string, session: nat :| Awaits(events, i, project, session);
  }

  lemma TwoEventsEnd(s: Page)
    requires s.panel.request in s.panel.loads && s.panel.loads[s.panel.request] == ProjectLoad(s.session, s.panel.selected)
    ensures var s1 := Step(s, Resume("user"));
            && s1.panel == s.panel && Step(s1, ProjectReply(s.panel.request, [])).panel.state.Ready?
  {}

  lemma ReloadReplies(s: Page, available: set<string>, list: seq<string>)
    requires s.panel.selected in available && s.panel.selected != "" && s.principal.Some?
    ensures var again := Step(s, RenderOptions(available));
            && again.panel.request == s.panel.request + 1
            && var shown := Step(again, ProjectReply(s.panel.request + 1, list));
               shown.panel.state.Ready? && shown.panel.list == list && shown.panel.selected == s.panel.selected
  {}

  /** Rendering the project options anew, as every successful reload of the projects does, issues the load again if the
      project is still offered, and its reply ends even a hopeless wait. */
  lemma ReloadEndsWait(events: seq<Event>, available: set<string>, list: seq<string>)
    requires Run(events).panel.selected in available && Run(events).panel.selected != "" && Run(events).principal.Some?
    ensures var reload := [RenderOptions(available), ProjectReply(Run(events).panel.request + 1, list)];
            var s := Run(events + reload);
            s.panel.state.Ready? && s.panel.list == list && s.panel.selected == Run(events).panel.selected
  {
    hide Step, Run;
    var first, last := RenderOptions(available), ProjectReply(Run(events).panel.request + 1, list);
    ReloadReplies(Run(events), available, list);
    RunSnoc(events, first);
    RunSnoc(events + [first], last);
    assert events + [first] + [last] == events + [first, last];
  }

  /** A login while a load is in flight makes the wait hopeless: the reply has come, and nothing is in flight. */
  lemma LoginMakesHopeless(list: seq<string>)
    ensures var s := Run([Login("ann"), SelectProject("p"), Login("bob"), ProjectReply(1, list)]);
            Hopeless(s) && s.panel.selected == "p" && s.panel.loads == map[] && s.principal == Some("bob")
  {
    RunOfFour(Login("ann"), SelectProject("p"), Login("bob"), ProjectReply(1, list));
  }

  // ----- the page's handlers -----

  /** The globals of app.js that the two loaders use, the calls that wait for a reply, and all events so far. */
  class Browser {
    var session: nat
    var principal: Option<string>
    var selected: string
    var projectRequest: nat
    var loadState: LoadState
    var loadError: string
    var projectInvoices: seq<string>
    var projectLoads: map<nat, ProjectLoad>
    var listRequest: nat
    var query: string
    var invoices: seq<string>
    var listLoads: map<nat, ListLoad>
    var timer: Option<ListLoad>
    ghost var events: seq<Event>

    ghost function State(): Page
      reads this
    {
      Page(session, principal, Panel(selected, projectRequest, loadState, loadError, projectInvoices, projectLoads),
           Listing(listRequest, query, invoices, listLoads, timer))
    }

    /** The page is what the events make it, and a ready page shows the reply to the latest load for its selection. */
    ghost predicate Valid()
      reads this
    {
      && State() == Run(events)
      && (loadState.Ready? && selected != "" ==> HasAnswer(events, selected))
    }

    constructor ()
      ensures Valid() && events == []
    {
      session, principal, selected := 0, None, "";
      projectRequest, loadState, loadError, projectInvoices, projectLoads := 0, Idle, "", [], map[];
      listRequest, query, invoices, listLoads, timer := 0, "", [], map[], None;
      events := [];
    }

    ghost method Record(e: Event)
      requires State() == Step(Run(events), e)
      modifies this`events
      ensures Valid() && events == old(events) + [e]
    {
      hide Step, Run, AnsweredBy;
      RunSnoc(events, e);
      events := events + [e];
      if loadState.Ready? && selected != "" { ReadyShowsLatest(events); }
    }

    method LoadProjectInvoices(project: string)
      modifies this`projectRequest, this`projectInvoices, this`loadState, this`loadError, this`projectLoads
      ensures State() == StartProjectLoad(old(State()), project)
    {
      projectRequest := projectRequest + 1;
      projectInvoices := [];
      loadState := if project != "" then Loading else Idle;
      loadError := "";
      if project == "" { return; }
      projectLoads := projectLoads[projectRequest := ProjectLoad(session, project)];
    }

    /** A reply or an error reaches the page only if it answers the latest load, in its session, for the selection. */
    method ProjectReplied(request: nat, reply: Result<seq<string>>, message: string)
      requires Valid()
      modifies this
      ensures Valid()
      ensures events == old(events) + [if reply.Ok? then ProjectReply(request, reply.value) else ProjectError(request, message)]
      ensures (loadState, projectInvoices, loadError) != old((loadState, projectInvoices, loadError)) ==>
                request == projectRequest && HasLatest(old(events), selected, session)
    {
      hide Run, AnsweredBy, HasLatest;
      ghost var e := if reply.Ok? then ProjectReply(request, reply.value) else ProjectError(request, message);
      ghost var before := State();
      var current := request in projectLoads && request == projectRequest && projectLoads[request].session == session
                     && principal.Some? && selected == projectLoads[request].project;
      projectLoads := projectLoads - {request};
      if current && reply.Ok? {
        projectInvoices := reply.value;
        loadState := Ready;
      } else if current {
        loadState := Failed;
        loadError := message;
      }
      assert State() == Step(before, e);
      if Step(before, e) != before.(panel := Settled(before, request)) { NoLateReply(events, e); }
      Record(e);
    }

    method ChangeProject(project: string)
      requires Valid()
      modifies this
      ensures Valid() && events == old(events) + [SelectProject(project)]
    {
      hide Run, AnsweredBy;
      selected := project;
      LoadProjectInvoices(selected);
      Record(SelectProject(project));
    }

    method ClearReimbursementSelection()
      requires Valid()
      modifies this
      ensures Valid() && events == old(events) + [ClearSelection]
    {
      hide Run, AnsweredBy;
      selected := "";
      projectInvoices := [];
      projectRequest := projectRequest + 1;
      loadState := Idle;
      Record(ClearSelection);
    }

    method ReimbursementSubmitted()
      requires Valid()
      modifies this
      ensures Valid() && events == old(events) + [SubmitSucceeded]
    {
      hide Run, AnsweredBy;
      selected := "";
      LoadProjectInvoices("");
      Record(SubmitSucceeded);
    }

    method RenderProjectOptions(available: set<string>)
      requires Valid()
      modifies this
      ensures Valid() && events == old(events) + [RenderOptions(available)]
    {
      hide Run, AnsweredBy;
      var wasSelected := selected;
      selected := "";
      if wasSelected in available { selected := wasSelected; }
      if selected != "" { LoadProjectInvoices(selected); }
      Record(RenderOptions(available));
    }

    method LoadInvoices()
      modifies this`listRequest, this`listLoads
      ensures State() == StartListLoad(old(State()))
    {
      if principal.None? { return; }
      listRequest := listRequest + 1;
      listLoads := listLoads[listRequest := ListLoad(session, query)];
    }

    method Refresh()
      requires Valid()
      modifies this
      ensures Valid() && events == old(events) + [RefreshList]
    {
      hide Run, AnsweredBy;
      LoadInvoices();
      Record(RefreshList);
    }

    /** A list that reaches the page was asked for under the present query, in this session, after the last search input. */
    method ListReplied(request: nat, reply: Result<seq<string>>)
      requires Valid()
      modifies this
      ensures Valid()
      ensures events == old(events) + [if reply.Ok? then ListReply(request, reply.value) else ListError(request)]
      ensures invoices != old(invoices) ==> exists i :: LatestQuery(old(events), i, query, session)
    {
      hide Run, AnsweredBy, LatestQuery;
      ghost var e := if reply.Ok? then ListReply(request, reply.value) else ListError(request);
      ghost var before := State();
      var current := request in listLoads && request == listRequest && listLoads[request].session == session && principal.Some?;
      listLoads := listLoads - {request};
      if current && reply.Ok? { invoices := reply.value; }
      assert State() == Step(before, e);
      if reply.Ok? && invoices != before.listing.list { ListReplyMatchesQuery(events, request, reply.value); }
      Record(e);
    }

    method Search(text: string)
      requires Valid()
      modifies this
      ensures Valid() && events == old(events) + [SearchInput(text)]
    {
      hide Run, AnsweredBy;
      listRequest := listRequest + 1;
      timer := Some(ListLoad(session, text));
      Record(SearchInput(text));
    }

    method SearchTimerFired()
      requires Valid()
      modifies this
      ensures Valid() && events == old(events) + [SearchTimer]
    {
      hide Run, AnsweredBy;
      if timer.Some? {
        var armed := timer.value;
        timer := None;
        if armed.session == session && principal.Some? {
          query := armed.query;
          LoadInvoices();
        }
      }
      Record(SearchTimer);
    }

    method LoggedIn(user: string)
      requires Valid()
      modifies this
      ensures Valid() && events == old(events) + [Login(user)]
    {
      hide Run, AnsweredBy;
      principal := Some(user);
      session := session + 1;
      Record(Login(user));
    }

    method Resumed(user: string)
      requires Valid()
      modifies this
      ensures Valid() && events == old(events) + [Resume(user)]
    {
      hide Run, AnsweredBy;
      principal := Some(user);
      Record(Resume(user));
    }

    method LoggedOut()
      requires Valid()
      modifies this
      ensures Valid() && events == old(events) + [Logout]
    {
      hide Run, AnsweredBy;
      session := session + 1;
      principal := None;
      ClearLists();
      Record(Logout);
    }

    /** The part of a logout that empties the page. */
    method ClearLists()
      modifies this
      ensures unchanged(`session, `principal, `projectLoads, `listLoads, `events)
      ensures projectRequest == old(projectRequest) + 1 && listRequest == old(listRequest) + 1
      ensures loadState.Idle? && loadError == query == selected == "" && projectInvoices == invoices == [] && timer.None?
    {
      invoices := [];
      projectRequest := projectRequest + 1;
      listRequest := listRequest + 1;
      timer := None;
      loadState := Idle;
      loadError := "";
      projectInvoices := [];
      query := "";
      selected := "";
    }
  }
}
