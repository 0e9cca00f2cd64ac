/** What the page shows after its events: loads empty it, answers fill it, a search is answered, and a logout leaves nothing. */
module PageEffects {
  import opened Basics
  import opened LateReplies

  // ----- the invoices of a project -----

  /** A load for the selected project: the old list and error are gone at once, and one more request is in flight. */
  predicate Loads(s: Page, s': Page, project: string) {
    var n := s.panel.request + 1;
    && s' == s.(panel := s'.panel)
    && s'.panel.selected == project && s'.panel.list == [] && s'.panel.error == "" && s'.panel.request == n
    && (if project == "" then s'.panel.state.Idle? && s'.panel.loads == s.panel.loads
        else s'.panel.state.Loading? && s'.panel.loads == s.panel.loads[n := ProjectLoad(s.session, project)])
  }

  /** A choice of a project loads it; a submitted form loads nothing and selects nothing; new options load the selection again if it is
      still offered, and otherwise drop it. A clearing empties the list and lets no reply in. */
  lemma SelectionEffects(s: Page, project: string, available: set<string>)
    ensures Loads(s, Step(s, SelectProject(project)), project)
    ensures Loads(s, Step(s, SubmitSucceeded), "")
    ensures if s.panel.selected in available && s.panel.selected != "" then Loads(s, Step(s, RenderOptions(available)), s.panel.selected)
            else Step(s, RenderOptions(available)) == s.(panel := s.panel.(selected := ""))
    ensures Step(s, ClearSelection) == s.(panel := s.panel.(selected := "", list := [], state := Idle, request := s.panel.request + 1))
  {}

  /** The request is the last one made, in this session and for the project that is selected, and somebody is logged in. */
  predicate Answers(s: Page, n: nat) {
    && n == s.panel.request && n in s.panel.loads && s.panel.loads[n] == ProjectLoad(s.session, s.panel.selected)
    && s.principal.Some?
  }

  /** A reply is shown, and an error too, exactly if it answers that request; any other is dropped. Either way the call is over. */
  lemma ReplyEffects(s: Page, n: nat, list: seq<string>, message: string)
    ensures var over := s.panel.(loads := s.panel.loads - {n});
            if Answers(s, n) then
              && Step(s, ProjectReply(n, list)) == s.(panel := over.(state := Ready, list := list))
              && Step(s, ProjectError(n, message)) == s.(panel := over.(state := Failed, error := message))
            else
              && Step(s, ProjectReply(n, list)) == s.(panel := over)
              && Step(s, ProjectError(n, message)) == s.(panel := over)
  {}

  /** A load that nothing interrupts is answered: its reply is what the page shows. */
  lemma LoadIsAnswered(s: Page, project: string, list: seq<string>)
    requires project != "" && s.principal.Some?
    ensures var asked := Step(s, SelectProject(project));
            var shown := Step(asked, ProjectReply(asked.panel.request, list));
            && shown.panel.state.Ready? && shown.panel.list == list && shown.panel.selected == project
            && shown.listing == s.listing && shown.session == s.session && shown.principal == s.principal
  {}

  // ----- the invoice list -----

  /** A request for the list with the present query. */
  predicate ListAsked(s: Page, s': Page, query: string) {
    var n := s.listing.request + 1;
    s' == s.(listing := Listing(n, query, s.listing.list, s.listing.loads[n := ListLoad(s.session, query)], s'.listing.timer))
  }

  /** Typing shuts out every list reply still to come and arms the timer anew; the timer asks for what was typed, unless somebody else has
      logged in or everybody out; a refresh asks again. */
  lemma SearchEffects(s: Page, text: string)
    ensures Step(s, SearchInput(text)) ==
            s.(listing := s.listing.(request := s.listing.request + 1, timer := Some(ListLoad(s.session, text))))
    ensures s.listing.timer.None? ==> Step(s, SearchTimer) == s
    ensures s.listing.timer.Some? ==>
              var armed, fired := s.listing.timer.value, Step(s, SearchTimer);
              && fired.listing.timer.None?
              && if armed.session == s.session && s.principal.Some? then ListAsked(s, fired, armed.query)
                 else fired == s.(listing := s.listing.(timer := None))
    ensures if s.principal.Some? then ListAsked(s, Step(s, RefreshList), s.listing.query) && Step(s, RefreshList).listing.timer == s.listing.timer
            else Step(s, RefreshList) == s
  {}

  /** A list is shown exactly if it answers the last request, in this session, with somebody logged in; an error leaves the list. */
  lemma ListEffects(s: Page, n: nat, list: seq<string>)
    ensures var over := s.listing.(loads := s.listing.loads - {n});
            && Step(s, ListError(n)) == s.(listing := over)
            && Step(s, ListReply(n, list)) ==
               if n == s.listing.request && n in s.listing.loads && s.listing.loads[n].session == s.session && s.principal.Some?
               then s.(listing := over.(list := list)) else s.(listing := over)
  {}

  /** Whatever was typed before, a search that nothing interrupts is answered with the list for the last text typed. */
  lemma SearchIsAnswered(s: Page, first: string, last: string, list: seq<string>)
    requires s.principal.Some?
    ensures var asked := Step(Step(Step(s, SearchInput(first)), SearchInput(last)), SearchTimer);
            var shown := Step(asked, ListReply(asked.listing.request, list));
            && asked.listing.request in asked.listing.loads
            && asked.listing.loads[asked.listing.request] == ListLoad(s.session, last)
            && shown.listing.query == last && shown.listing.list == list && shown.panel == s.panel
  {}

  // ----- who is logged in -----

  /** A login begins a session; the first identity reply names the user of the session that is there; both leave the rest of the page. */
  lemma IdentityEffects(s: Page, user: string)
    ensures Step(s, Login(user)) == s.(principal := Some(user), session := s.session + 1)
    ensures Step(s, Resume(user)) == s.(principal := Some(user))
  {}

  /** What anybody can see. */
  function Visible(s: Page): (Option<string>, string, LoadState, string, seq<string>, string, seq<string>) {
    (s.principal, s.panel.selected, s.panel.state, s.panel.error, s.panel.list, s.listing.query, s.listing.list)
  }

  /** A logout leaves nothing to see; and whatever replies were on their way, none of them shows until somebody is known to be logged in,
      loads a project or asks for the list: the sessions and request numbers they carry are over. */
  lemma LogoutEmpties(s: Page, e: Event)
    ensures Visible(Step(s, Logout)) == (None, "", Idle, "", [], "", [])
    ensures e.ProjectReply? || e.ProjectError? || e.ListReply? || e.ListError? || e.SearchTimer? ==>
              Visible(Step(Step(s, Logout), e)) == Visible(Step(s, Logout))
    ensures Step(s, Logout).session == s.session + 1
  {}

  ghost predicate NoLoadAhead(s: Page) {
    forall n :: n in s.panel.loads ==> n <= s.panel.request && s.panel.loads[n].session <= s.session
  }

  lemma NoLoadAheadStep(s: Page, e: Event)
    requires NoLoadAhead(s)
    ensures NoLoadAhead(Step(s, e))
  {}

  lemma {:induction false} NeverAhead(events: seq<Event>)
    ensures NoLoadAhead(Run(events))
    decreases |events|
  {
    hide Step, NoLoadAhead;
    if events == [] {
      NothingAhead();
    } else {
      NeverAhead(events[..|events| - 1]);
      NoLoadAheadStep(Run(events[..|events| - 1]), events[|events| - 1]);
    }
  }

  lemma NothingAhead()
    ensures NoLoadAhead(Run([]))
  {}

  lemma {:induction false} OutdatedLasts(s0: Page, events: seq<Event>, more: seq<Event>, n: nat)
    requires s0 == Run(events) && Outdated(s0, n) && forall k :: 0 <= k < |more| ==> !Replies(more[k], n)
    ensures Outdated(Run(events + more), n)
    decreases |more|
  {
    hide Step, Outdated;
    if more == [] {
      assert events + more == events;
    } else {
      var init, e := more[..|more| - 1], more[|more| - 1];
      OutdatedLasts(s0, events, init, n);
      RunSnoc(events + init, e);
      assert events + init + [e] == events + more;
      StaysOutdated(Run(events + init), e, n);
    }
  }

  /** The call is still suspended, in a session that is over. */
  predicate Outdated(s: Page, n: nat) {
    n <= s.panel.request && n in s.panel.loads && s.panel.loads[n].session < s.session
  }

  lemma OutdatedIsDropped(s: Page, n: nat)
    requires Outdated(s, n)
    ensures !Answers(s, n)
  {}

  /** No load that was in flight at a logout can be answered any more, whatever happens next: its session is over, and sessions only
      grow. */
  lemma NothingShowsAfterLogout(events: seq<Event>, more: seq<Event>, n: nat)
    requires n in Run(events).panel.loads && forall k :: 0 <= k < |more| ==> !Replies(more[k], n)
    ensures n in Run(events + [Logout] + more).panel.loads && !Answers(Run(events + [Logout] + more), n)
  {
    hide Step, Run, Answers;
    NeverAhead(events);
    RunSnoc(events, Logout);
    LogoutOutdates(Run(events), n);
    OutdatedLasts(Run(events + [Logout]), events + [Logout], more, n);
    OutdatedIsDropped(Run(events + [Logout] + more), n);
  }

  lemma LogoutOutdates(s: Page, n: nat)
    requires NoLoadAhead(s) && n in s.panel.loads
    ensures Outdated(Step(s, Logout), n)
  {}

  lemma StaysOutdated(s: Page, e: Event, n: nat)
    requires Outdated(s, n) && !Replies(e, n)
    ensures Outdated(Step(s, e), n)
  {}
}
