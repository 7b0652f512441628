/**
 Snapshot ids and ref tables of a browser session with several pages.

 Every page keeps its own last snapshot id and ref table, and the session keeps a copy of the
 current page's.  Ids are judged against the log of what was issued and invalidated.
 */
module Snapshots {
  import opened Common

  type PageId = nat
  type Refs = map<string, int>

  datatype SnapshotId = SnapshotId(page: PageId, serial: nat)

  // What happened to snapshots, oldest first: the reference against which ids are judged.
  datatype Fact = Issued(id: SnapshotId, refs: Refs) | Invalidated(page: PageId)

  function Concerns(f: Fact): PageId {
    match f
    case Issued(id, _) => id.page
    case Invalidated(page) => page
  }

  // The latest snapshot of a page, unless an invalidation of that page came after it.
  function Latest(log: seq<Fact>, page: PageId): Option<Fact> {
    if log == [] then None
    else
      var last := log[|log| - 1];
      if Concerns(last) != page then Latest(log[..|log| - 1], page)
      else if last.Issued? then Some(last) else None
  }

  predicate WasIssued(log: seq<Fact>, id: SnapshotId) {
    exists i :: 0 <= i < |log| && log[i].Issued? && log[i].id == id
  }

  lemma LatestAfter(log: seq<Fact>, f: Fact, page: PageId)
    ensures Latest(log + [f], page)
         == if Concerns(f) != page then Latest(log, page) else if f.Issued? then Some(f) else None
  {
    assert (log + [f])[..|log|] == log;
  }

  lemma LatestIsIssued(log: seq<Fact>, page: PageId)
    requires Latest(log, page).Some?
    ensures Latest(log, page).value in log
    ensures Latest(log, page).value.Issued? && Latest(log, page).value.id.page == page
  {
    if Concerns(log[|log| - 1]) != page {
      LatestIsIssued(log[..|log| - 1], page);
    }
  }

  datatype PageState = PageState(refs: Refs, active: Option<SnapshotId>)

  datatype Session = Session(
    pages: map<PageId, PageState>,
    current: Option<PageId>,
    refs: Refs,
    active: Option<SnapshotId>,
    snapshotCounter: nat,
    pageCounter: nat,
    log: seq<Fact>)

  const NewSession := Session(map[], None, map[], None, 0, 0, [])

  // -------------------------------------------------------------------- the operations

  function Invalidate(s: Session): Session {
    var cleared := s.(refs := map[], active := None);
    if s.current.None? || s.current.value !in s.pages then cleared
    else cleared.(pages := s.pages[s.current.value := PageState(map[], None)],
                  log := s.log + [Invalidated(s.current.value)])
  }

  // Selecting a page that stores no snapshot gives up the one that may still be logged for it.
  function Select(s: Session, page: PageId, invalidate: bool): Session
    requires page in s.pages
  {
    var selected := s.(current := Some(page), refs := s.pages[page].refs, active := s.pages[page].active);
    if invalidate then Invalidate(selected)
    else if selected.active.None? && Latest(s.log, page).Some? then selected.(log := s.log + [Invalidated(page)])
    else selected
  }

  // What the tree query answers: nothing, or a tree with its refs, which the formatter may choke on.
  datatype Query = Fails | Answers(refs: Refs, formats: bool)

  // A formatter that raises leaves the new id in force in the session and the old one with the page.
  function TakeSnapshot(s: Session, tree: Query): Session {
    if s.current.None? || s.current.value !in s.pages || tree.Fails? then s
    else
      var id := SnapshotId(s.current.value, s.snapshotCounter + 1);
      var stored := if tree.formats then Some(id) else s.pages[s.current.value].active;
      s.(refs := tree.refs, active := Some(id), snapshotCounter := s.snapshotCounter + 1,
         pages := s.pages[s.current.value := PageState(tree.refs, stored)],
         log := s.log + [Issued(id, tree.refs)])
  }

  // `known` is the id under which the page is registered already.
  function OpenPage(s: Session, known: Option<PageId>, makeCurrent: bool): Session {
    if known.Some? then if makeCurrent && known.value in s.pages then Select(s, known.value, true) else s
    else
      var page := s.pageCounter + 1;
      var grown := s.(pageCounter := page, pages := s.pages[page := PageState(map[], None)]);
      if makeCurrent || s.current.None? then Select(grown, page, false) else grown
  }

  // `heir` is the page that takes over when the current one goes.
  function PageGone(s: Session, page: PageId, heir: PageId): Session {
    if page !in s.pages then s
    else
      var without := s.(pages := s.pages - {page});
      if s.current != Some(page) then without
      else if heir !in without.pages then without.(current := None, refs := map[], active := None)
      else Select(without, heir, true)
  }

  // -------------------------------------------------------------------- what they keep

  ghost predicate PagesInv(s: Session) {
    && (s.current.Some? ==> s.current.value in s.pages)
    && (forall p :: p in s.pages ==> 0 < p <= s.pageCounter)
    && (forall f :: f in s.log ==> Concerns(f) <= s.pageCounter)
    && (forall f :: f in s.log && f.Issued? ==> f.id.serial <= s.snapshotCounter)
    && (forall p :: p in s.pages && s.pages[p].active.Some? ==> WasIssued(s.log, s.pages[p].active.value))
  }

  // What a page stores is its latest snapshot that was not invalidated.
  predicate Stores(log: seq<Fact>, page: PageId, state: PageState) {
    match Latest(log, page)
    case None => state.active.None?
    case Some(fact) => fact.Issued? && state == PageState(fact.refs, Some(fact.id))
  }

  // What the session holds is what the current page would store.  The page itself may lag behind.
  predicate CurrentInv(s: Session) {
    if s.current.None? then s.active.None? else Stores(s.log, s.current.value, PageState(s.refs, s.active))
  }

  ghost predicate Inv(s: Session) { PagesInv(s) && CurrentInv(s) }

  // Not accepted now, and with no chance left: the serial is used up, or the page is closed.
  predicate Spent(s: Session, id: SnapshotId) {
    && Some(id) != s.active
    && (id.serial <= s.snapshotCounter || (id.page !in s.pages && id.page <= s.pageCounter))
  }

  /** What is spent in `a` is spent in `b`. */
  ghost predicate NoRevival(a: Session, b: Session) {
    a.log <= b.log && forall id :: Spent(a, id) ==> Spent(b, id)
  }

  lemma IssuedStays(log: seq<Fact>, f: Fact, id: SnapshotId)
    requires WasIssued(log, id)
    ensures WasIssued(log + [f], id)
  {
    var i :| 0 <= i < |log| && log[i].Issued? && log[i].id == id;
    assert (log + [f])[i] == log[i];
  }

  // A fact is added, and pages change at most to what was issued or to nothing.
  lemma LogKeepsPages(s: Session, t: Session, f: Fact)
    requires PagesInv(s) && t.log == s.log + [f] && Concerns(f) in s.pages
    requires t.current == s.current && t.pages.Keys == s.pages.Keys && t.pageCounter == s.pageCounter
    requires s.snapshotCounter <= t.snapshotCounter && (f.Issued? ==> f.id.serial <= t.snapshotCounter)
    requires forall p :: p in t.pages && t.pages[p].active.Some? ==>
               t.pages[p].active == s.pages[p].active || (f.Issued? && t.pages[p].active == Some(f.id))
    ensures PagesInv(t)
  {
    forall p | p in t.pages && t.pages[p].active.Some?
      ensures WasIssued(t.log, t.pages[p].active.value)
    {
      if t.pages[p].active == s.pages[p].active {
        IssuedStays(s.log, f, t.pages[p].active.value);
      } else {
        assert t.log[|s.log|] == f;
      }
    }
  }

  // Whatever the session held before, also right after a selection.
  lemma InvalidateClears(s: Session)
    requires PagesInv(s) && (s.current.None? ==> s.active.None?)
    ensures Inv(Invalidate(s)) && Invalidate(s).active.None? && s.log <= Invalidate(s).log
    ensures NoRevival(s, Invalidate(s))
  {
    if s.current.Some? {
      var fact := Invalidated(s.current.value);
      LatestAfter(s.log, fact, s.current.value);
      LogKeepsPages(s, Invalidate(s), fact);
    }
  }

  lemma InvalidateKeeps(s: Session)
    requires Inv(s)
    ensures Inv(Invalidate(s)) && NoRevival(s, Invalidate(s)) && Invalidate(s).active.None?
    ensures s.current.Some? ==>
              var page := s.current.value;
              page <= s.pageCounter && page in s.pages && Invalidate(s).pages == s.pages[page := PageState(map[], None)]
  {
    InvalidateClears(s);
  }

  lemma StoredIsUsed(s: Session, page: PageId)
    requires PagesInv(s) && page in s.pages && s.pages[page].active.Some?
    ensures s.pages[page].active.value.serial <= s.snapshotCounter
  {
    var id := s.pages[page].active.value;
    var i :| 0 <= i < |s.log| && s.log[i].Issued? && s.log[i].id == id;
    assert s.log[i] in s.log;
  }

  /** Selecting a page without invalidating it revives an issued id exactly when that page still
      stores one other than the accepted one; the session stays consistent exactly when the page stores
      none or its latest snapshot. */
  lemma SelectKeeps(s: Session, page: PageId, invalidate: bool)
    requires Inv(s) && page in s.pages
    ensures Inv(Select(s, page, invalidate))
        <==> invalidate || s.pages[page].active.None? || Stores(s.log, page, s.pages[page])
    ensures invalidate ==> Select(s, page, invalidate).active.None?
    ensures Select(s, page, invalidate).current == Some(page)
    ensures !invalidate ==> Select(s, page, invalidate).active == s.pages[page].active
    ensures NoRevival(s, Select(s, page, invalidate))
        <==> invalidate || s.pages[page].active.None? || s.pages[page].active == s.active
  {
    var selected := s.(current := Some(page), refs := s.pages[page].refs, active := s.pages[page].active);
    InvalidateClears(selected);
    var fact := Invalidated(page);
    LatestAfter(s.log, fact, page);
    LogKeepsPages(selected, selected.(log := s.log + [fact]), fact);
    if s.pages[page].active.Some? {
      StoredIsUsed(s, page);
      assert s.pages[page].active != s.active ==> Spent(s, s.pages[page].active.value);
    }
  }

  lemma TakeSnapshotKeeps(s: Session, tree: Query)
    requires Inv(s)
    ensures Inv(TakeSnapshot(s, tree)) && NoRevival(s, TakeSnapshot(s, tree))
    ensures s.current.Some? && tree.Answers? ==>
              var b := TakeSnapshot(s, tree);
              b.active.Some? && !WasIssued(s.log, b.active.value) && b.refs == tree.refs
  {
    if s.current.Some? && tree.Answers? {
      var b := TakeSnapshot(s, tree);
      var fact := Issued(b.active.value, tree.refs);
      assert !WasIssued(s.log, b.active.value);
      LatestAfter(s.log, fact, s.current.value);
      LogKeepsPages(s, b, fact);
    }
  }

  lemma NothingKnown(log: seq<Fact>, page: PageId)
    requires forall f :: f in log ==> Concerns(f) != page
    ensures Latest(log, page) == None
  {
  }

  // The page stores nothing, or what the session holds for it.
  predicate Clean(s: Session, page: PageId) {
    page in s.pages ==>
      s.pages[page].active.None? || (s.current == Some(page) && s.pages[page] == PageState(s.refs, s.active))
  }

  // What a callback leaves of the pages.  Page ids are not used again.
  ghost predicate LeavesPages(a: Session, b: Session) {
    && a.pageCounter <= b.pageCounter && (forall p :: p in b.pages ==> p in a.pages || p > a.pageCounter)
    && (forall p :: p in a.pages && p in b.pages && a.pages[p].active.None? ==> b.pages[p].active.None?)
    && (forall p :: p in a.pages && Clean(a, p) ==> Clean(b, p))
  }

  lemma LeavesChains(a: Session, b: Session, c: Session)
    requires PagesInv(a) && LeavesPages(a, b) && LeavesPages(b, c)
    ensures LeavesPages(a, c)
  {
    forall p | p in a.pages && Clean(a, p)
      ensures Clean(c, p)
    {
      if p in b.pages {
        assert Clean(b, p);
      } else {
        assert p !in c.pages;
      }
    }
  }

  predicate StoresNothing(s: Session, page: PageId) { page in s.pages ==> s.pages[page].active.None? }

  lemma EmptyStays(a: Session, b: Session)
    requires PagesInv(a) && LeavesPages(a, b)
    ensures forall p :: p in a.pages && StoresNothing(a, p) ==> StoresNothing(b, p)
    ensures a.pageCounter <= b.pageCounter
  {
  }

  lemma CleanStays(a: Session, b: Session, page: PageId)
    requires PagesInv(a) && LeavesPages(a, b) && page <= a.pageCounter && Clean(a, page)
    ensures Clean(b, page)
  {
  }

  lemma CleanIsConsistent(s: Session, page: PageId)
    requires Inv(s) && page in s.pages && Clean(s, page)
    ensures s.pages[page].active.None? || Stores(s.log, page, s.pages[page])
    ensures s.pages[page].active.None? || s.pages[page].active == s.active
  {
  }

  lemma NothingRan(s: Session)
    ensures NoRevival(s, s) && LeavesPages(s, s)
  {
  }

  lemma NewPageKeeps(s: Session, makeCurrent: bool)
    requires Inv(s)
    ensures var b := OpenPage(s, None, makeCurrent);
            && Inv(b) && NoRevival(s, b) && b.pages == s.pages[s.pageCounter + 1 := PageState(map[], None)]
            && (makeCurrent ==> b.current == Some(s.pageCounter + 1) && b.active.None?)
  {
    NothingKnown(s.log, s.pageCounter + 1);
  }

  lemma NewPageLeavesPages(s: Session)
    requires Inv(s)
    ensures LeavesPages(s, OpenPage(s, None, false))
  {
    hide Stores;
    NothingKnown(s.log, s.pageCounter + 1);
  }

  lemma OpenPageKeeps(s: Session, known: Option<PageId>, makeCurrent: bool)
    requires Inv(s)
    ensures Inv(OpenPage(s, known, makeCurrent)) && NoRevival(s, OpenPage(s, known, makeCurrent))
    ensures !makeCurrent ==> LeavesPages(s, OpenPage(s, known, makeCurrent))
    ensures known.None? ==>
              var b := OpenPage(s, known, makeCurrent);
              && b.pages == s.pages[s.pageCounter + 1 := PageState(map[], None)]
              && (makeCurrent ==> b.current == Some(s.pageCounter + 1) && b.active.None?)
    ensures OpenPage(s, known, makeCurrent).current ==
            if known.None? && (makeCurrent || s.current.None?) then Some(s.pageCounter + 1)
            else if known.Some? && makeCurrent && known.value in s.pages then known
            else s.current
  {
    hide Inv, NoRevival, LeavesPages;
    if known.None? {
      NewPageKeeps(s, makeCurrent);
      NewPageLeavesPages(s);
    } else {
      NothingRan(s);
      if known.value in s.pages {
        SelectKeeps(s, known.value, true);
      }
    }
  }

  lemma PageGoneKeeps(s: Session, page: PageId, heir: PageId)
    requires Inv(s)
    ensures Inv(PageGone(s, page, heir)) && NoRevival(s, PageGone(s, page, heir))
    ensures PageGone(s, page, heir).pages.Keys == s.pages.Keys - {page}
    ensures LeavesPages(s, PageGone(s, page, heir))
    ensures PageGone(s, page, heir).current ==
            if page !in s.pages || s.current != Some(page) then s.current
            else if heir in s.pages - {page} then Some(heir) else None
    ensures page in s.pages && s.current == Some(page) ==>
              PageGone(s, page, heir).active.None? && PageGone(s, page, heir).refs == map[]
  {
    if page in s.pages && s.current == Some(page) && heir in s.pages - {page} {
      var without := s.(pages := s.pages - {page}, current := Some(heir),
                        refs := s.pages[heir].refs, active := s.pages[heir].active);
      InvalidateClears(without);
    }
  }

  /** After an answered query page and session store the same id exactly when the formatter did not raise. */
  lemma FormatterDecides(s: Session, tree: Query)
    requires Inv(s) && s.current.Some? && tree.Answers?
    ensures var b := TakeSnapshot(s, tree);
            && b.active == Some(SnapshotId(s.current.value, s.snapshotCounter + 1))
            && (b.pages[s.current.value].active == b.active <==> tree.formats)
  {
    if s.pages[s.current.value].active.Some? {
      StoredIsUsed(s, s.current.value);
    }
  }

  /** After such a failure the page may still store the old id, which selecting it without invalidating it
      would bring back. */
  lemma FormatterFailureLagsBehind() returns (s: Session, stale: SnapshotId)
    ensures Inv(s) && WasIssued(s.log, stale) && s.active != Some(stale)
    ensures s.current.Some? && Select(s, s.current.value, false).active == Some(stale)
  {
    OpenPageKeeps(NewSession, None, true);
    var a := OpenPage(NewSession, None, true);
    TakeSnapshotKeeps(a, Answers(map[], true));
    var b := TakeSnapshot(a, Answers(map[], true));
    TakeSnapshotKeeps(b, Answers(map[], false));
    s, stale := TakeSnapshot(b, Answers(map[], false)), b.active.value;
  }

  lemma NoRevivalChains(a: Session, b: Session, c: Session)
    requires NoRevival(a, b) && NoRevival(b, c)
    ensures NoRevival(a, c)
  {
    hide Spent;
  }

  // -------------------------------------------------------------------- whole operations

  // Page callbacks that may run while an operation waits for the browser.
  datatype PageEvent = Opened(known: Option<PageId>) | Gone(page: PageId, heir: PageId)

  datatype Operation =
    | Start(known: Option<PageId>)
    | Observe(tree: Query)
    | Interact(events: seq<PageEvent>, follow: Option<PageId>, tree: Query)
    | ClickNext(events: seq<PageEvent>, observes: bool, follow: Option<PageId>, tree: Query,
                popup: bool, closing: seq<PageEvent>, again: Query)
    | SwitchPage(page: PageId, usable: bool, tree: Query)
    | ClosePage(page: PageId, heir: PageId, events: seq<PageEvent>, tree: Query)
    | Callback(event: PageEvent)
    | Shutdown

  function AfterEvent(s: Session, event: PageEvent): Session {
    match event
    case Opened(known) => OpenPage(s, known, false)
    case Gone(page, heir) => PageGone(s, page, heir)
  }

  function AfterEvents(s: Session, events: seq<PageEvent>): Session {
    if events == [] then s else AfterEvent(AfterEvents(s, events[..|events| - 1]), events[|events| - 1])
  }

  // Go to a page that opened, if any, and observe what is there now.
  function Followed(s: Session, follow: Option<PageId>, tree: Query): Session {
    TakeSnapshot(if follow.Some? && follow.value in s.pages then Select(s, follow.value, true) else s, tree)
  }

  // Pagination: an unwanted popup, noticed before or after the observation behind the click, is closed
  // and the original page selected again WITHOUT invalidating it; that is safe because it was
  // invalidated before the click.
  function Recovered(s: Session, original: Option<PageId>, closing: seq<PageEvent>, again: Query): Session {
    var closed := AfterEvents(s, closing);
    if original.None? || original.value !in closed.pages then closed
    else TakeSnapshot(Select(closed, original.value, false), again)
  }

  function Clicked(s: Session, events: seq<PageEvent>, observes: bool, follow: Option<PageId>, tree: Query): Session {
    var after := AfterEvents(Invalidate(s), events);
    if observes then Followed(after, follow, tree) else after
  }

  function ClosedResources(s: Session): Session {
    s.(pages := map[], current := None, refs := map[], active := None)
  }

  function Performed(s: Session, op: Operation): Session {
    match op
    case Start(known) => OpenPage(s, known, true)
    case Observe(tree) => TakeSnapshot(s, tree)
    case Interact(events, follow, tree) => Clicked(s, events, true, follow, tree)
    case ClickNext(events, observes, follow, tree, popup, closing, again) =>
      var after := Clicked(s, events, observes, follow, tree);
      if popup then Recovered(after, s.current, closing, again) else after
    case SwitchPage(page, usable, tree) =>
      if page !in s.pages || !usable then s else Followed(s, Some(page), tree)
    case ClosePage(page, heir, events, tree) =>
      if page !in s.pages then s else TakeSnapshot(PageGone(AfterEvents(s, events), page, heir), tree)
    case Callback(event) => AfterEvent(s, event)
    case Shutdown => ClosedResources(s)
  }

  function PerformedAll(s: Session, ops: seq<Operation>): Session {
    if ops == [] then s else Performed(PerformedAll(s, ops[..|ops| - 1]), ops[|ops| - 1])
  }

  lemma EventKeeps(s: Session, event: PageEvent)
    requires Inv(s)
    ensures var b := AfterEvent(s, event); Inv(b) && NoRevival(s, b) && LeavesPages(s, b)
  {
    hide Inv, NoRevival, LeavesPages, OpenPage, PageGone;
    match event {
      case Opened(known) => OpenPageKeeps(s, known, false);
      case Gone(page, heir) => PageGoneKeeps(s, page, heir);
    }
  }

  lemma {:induction false} EventsKeep(s: Session, events: seq<PageEvent>)
    requires Inv(s)
    ensures var b := AfterEvents(s, events); Inv(b) && NoRevival(s, b) && LeavesPages(s, b)
  {
    hide PagesInv, CurrentInv, NoRevival, LeavesPages, AfterEvent;
    if events == [] {
      NothingRan(s);
    } else {
      var n := |events| - 1;
      var a := AfterEvents(s, events[..n]);
      EventsKeep(s, events[..n]);
      EventKeeps(a, events[n]);
      NoRevivalChains(s, a, AfterEvents(s, events));
      LeavesChains(s, a, AfterEvents(s, events));
    }
  }

  lemma FollowKeeps(s: Session, follow: Option<PageId>, tree: Query)
    requires Inv(s)
    ensures var b := Followed(s, follow, tree); Inv(b) && NoRevival(s, b) && b.pageCounter == s.pageCounter
    ensures forall p :: StoresNothing(s, p) ==> Clean(Followed(s, follow, tree), p)
  {
    hide Inv, NoRevival;
    var a := if follow.Some? && follow.value in s.pages then Select(s, follow.value, true) else s;
    if follow.Some? && follow.value in s.pages {
      SelectKeeps(s, follow.value, true);
    } else {
      NothingRan(s);
    }
    TakeSnapshotKeeps(a, tree);
    NoRevivalChains(s, a, Followed(s, follow, tree));
  }

  lemma ClickKeeps(s: Session, events: seq<PageEvent>, observes: bool, follow: Option<PageId>, tree: Query)
    requires Inv(s)
    ensures var b := Clicked(s, events, observes, follow, tree);
            && Inv(b) && NoRevival(s, b)
            && (s.current.Some? ==> s.current.value <= b.pageCounter && Clean(b, s.current.value))
  {
    hide PagesInv, CurrentInv, NoRevival, LeavesPages, Followed, AfterEvents;
    var a := Invalidate(s);
    var b := AfterEvents(a, events);
    InvalidateKeeps(s);
    assert s.current.Some? ==> StoresNothing(a, s.current.value);
    EventsKeep(a, events);
    EmptyStays(a, b);
    NoRevivalChains(s, a, b);
    if observes {
      FollowKeeps(b, follow, tree);
      NoRevivalChains(s, b, Followed(b, follow, tree));
    }
  }

  lemma RecoverKeeps(s: Session, original: Option<PageId>, closing: seq<PageEvent>, again: Query)
    requires Inv(s) && (original.Some? ==> original.value <= s.pageCounter && Clean(s, original.value))
    ensures var b := Recovered(s, original, closing, again); Inv(b) && NoRevival(s, b)
  {
    hide PagesInv, CurrentInv, NoRevival, LeavesPages, AfterEvents, Select, TakeSnapshot;
    var a := AfterEvents(s, closing);
    EventsKeep(s, closing);
    if original.Some? && original.value in a.pages {
      var selected := Select(a, original.value, false);
      CleanStays(s, a, original.value);
      CleanIsConsistent(a, original.value);
      SelectKeeps(a, original.value, false);
      TakeSnapshotKeeps(selected, again);
      NoRevivalChains(s, a, selected);
      NoRevivalChains(s, selected, TakeSnapshot(selected, again));
    }
  }

  lemma CloseKeeps(s: Session, page: PageId, heir: PageId, events: seq<PageEvent>, tree: Query)
    requires Inv(s)
    ensures var b := TakeSnapshot(PageGone(AfterEvents(s, events), page, heir), tree); Inv(b) && NoRevival(s, b)
  {
    hide Inv, NoRevival, LeavesPages, AfterEvents, PageGone, TakeSnapshot;
    var a := AfterEvents(s, events);
    var gone := PageGone(a, page, heir);
    EventsKeep(s, events);
    PageGoneKeeps(a, page, heir);
    TakeSnapshotKeeps(gone, tree);
    NoRevivalChains(s, a, gone);
    NoRevivalChains(s, gone, TakeSnapshot(gone, tree));
  }

  // The counters survive, so a restarted session never issues an old id again.
  lemma ShutdownKeeps(s: Session)
    requires Inv(s)
    ensures Inv(ClosedResources(s)) && NoRevival(s, ClosedResources(s))
  {
  }

  /** No operation revives a spent id. */
  lemma OperationKeeps(s: Session, op: Operation)
    requires Inv(s)
    ensures Inv(Performed(s, op)) && NoRevival(s, Performed(s, op))
  {
    hide Inv, NoRevival, OpenPage, TakeSnapshot, Followed, Clicked, Recovered, AfterEvent, AfterEvents, PageGone;
    hide ClosedResources, LeavesPages;
    NothingRan(s);
    match op {
      case Start(known) => OpenPageKeeps(s, known, true);
      case Observe(tree) => TakeSnapshotKeeps(s, tree);
      case Interact(events, follow, tree) => ClickKeeps(s, events, true, follow, tree);
      case ClickNext(events, observes, follow, tree, popup, closing, again) =>
        var after := Clicked(s, events, observes, follow, tree);
        ClickKeeps(s, events, observes, follow, tree);
        if popup {
          RecoverKeeps(after, s.current, closing, again);
          NoRevivalChains(s, after, Recovered(after, s.current, closing, again));
        }
      case SwitchPage(page, usable, tree) => FollowKeeps(s, Some(page), tree);
      case ClosePage(page, heir, events, tree) => CloseKeeps(s, page, heir, events, tree);
      case Callback(event) => EventKeeps(s, event);
      case Shutdown => ShutdownKeeps(s);
    }
  }

  lemma {:induction false} OperationsKeep(s: Session, ops: seq<Operation>)
    requires Inv(s)
    ensures Inv(PerformedAll(s, ops)) && NoRevival(s, PerformedAll(s, ops))
  {
    hide Inv, NoRevival, LeavesPages, Performed;
    if ops == [] {
      NothingRan(s);
    } else {
      var n := |ops| - 1;
      var a := PerformedAll(s, ops[..n]);
      OperationsKeep(s, ops[..n]);
      OperationKeeps(a, ops[n]);
      NoRevivalChains(s, a, PerformedAll(s, ops));
    }
  }

  // -------------------------------------------------------------------- what operations end with

  // The observation at the end of an operation: a new snapshot of the current page is in force, or none is.
  predicate Observed(s: Session, b: Session, tree: Query) {
    if tree.Answers? && b.current.Some? then
      && b.active == Some(SnapshotId(b.current.value, s.snapshotCounter + 1)) && b.refs == tree.refs
      && b.snapshotCounter == s.snapshotCounter + 1
    else b.active.None? && b.snapshotCounter == s.snapshotCounter
  }

  lemma EventSays(s: Session, event: PageEvent)
    requires Inv(s)
    ensures var b := AfterEvent(s, event);
            && b.snapshotCounter == s.snapshotCounter && (s.active.None? ==> b.active.None?)
            && s.pageCounter <= b.pageCounter && (event == Opened(None) ==> s.pageCounter < b.pageCounter)
            && (event.Gone? ==> event.page !in b.pages)
            && (forall p :: p <= s.pageCounter && p !in s.pages ==> p !in b.pages)
  {
  }

  /** Every callback that runs meanwhile has its effect: pages that went stay away, pages that opened count,
      and no snapshot is taken. */
  lemma {:induction false} EventsSay(s: Session, events: seq<PageEvent>)
    requires Inv(s)
    ensures var b := AfterEvents(s, events);
            && b.snapshotCounter == s.snapshotCounter && (s.active.None? ==> b.active.None?)
            && s.pageCounter <= b.pageCounter && (Opened(None) in events ==> s.pageCounter < b.pageCounter)
            && (forall p :: p <= s.pageCounter && p !in s.pages ==> p !in b.pages)
            && (forall e :: e in events && e.Gone? && e.page <= s.pageCounter ==> e.page !in b.pages)
  {
    hide Inv, AfterEvent;
    if events != [] {
      var before, last := events[..|events| - 1], events[|events| - 1];
      assert events == before + [last];
      EventsSay(s, before);
      EventsKeep(s, before);
      EventSays(AfterEvents(s, before), last);
    }
  }

  lemma FollowSays(s: Session, follow: Option<PageId>, tree: Query)
    requires Inv(s) && (s.active.None? || (follow.Some? && follow.value in s.pages))
    ensures Observed(s, Followed(s, follow, tree), tree)
    ensures Followed(s, follow, tree).current ==
            if follow.Some? && follow.value in s.pages then follow else s.current
  {
  }

  lemma ClickSays(s: Session, events: seq<PageEvent>, observes: bool, follow: Option<PageId>, tree: Query)
    requires Inv(s)
    ensures Observed(s, Clicked(s, events, observes, follow, tree), if observes then tree else Fails)
  {
    hide Inv, AfterEvents, Followed;
    InvalidateKeeps(s);
    EventsKeep(Invalidate(s), events);
    EventsSay(Invalidate(s), events);
    if observes {
      FollowSays(AfterEvents(Invalidate(s), events), follow, tree);
    }
  }

  lemma TakeSays(s: Session, tree: Query)
    requires Inv(s)
    ensures var b := TakeSnapshot(s, tree);
            && b.current == s.current && b.pages.Keys == s.pages.Keys
            && (if tree.Answers? && s.current.Some? then Observed(s, b, tree) else b == s)
  {
  }

  lemma GoneSays(s: Session, page: PageId, heir: PageId)
    requires Inv(s)
    ensures var b := PageGone(s, page, heir);
            && Inv(b) && page !in b.pages && b.current != Some(page) && b.snapshotCounter == s.snapshotCounter
            && (s.active.None? ==> b.active.None?)
  {
    PageGoneKeeps(s, page, heir);
  }

  lemma GoneObserved(s: Session, page: PageId, heir: PageId, tree: Query)
    requires Inv(s)
    ensures var b := TakeSnapshot(PageGone(s, page, heir), tree);
            && page !in b.pages && b.current != Some(page)
            && (s.active.None? || (tree.Answers? && b.current.Some?) ==> Observed(s, b, tree))
  {
    hide PageGone, TakeSnapshot, Inv;
    GoneSays(s, page, heir);
    TakeSays(PageGone(s, page, heir), tree);
  }

  lemma CloseSays(s: Session, page: PageId, heir: PageId, events: seq<PageEvent>, tree: Query)
    requires Inv(s)
    ensures var b := TakeSnapshot(PageGone(AfterEvents(s, events), page, heir), tree);
            && page !in b.pages && b.current != Some(page)
            && (s.active.None? || (tree.Answers? && b.current.Some?) ==> Observed(s, b, tree))
  {
    hide PageGone, TakeSnapshot, Inv, AfterEvents;
    EventsKeep(s, events);
    EventsSay(s, events);
    GoneObserved(AfterEvents(s, events), page, heir, tree);
  }

  lemma ClickNextSays(s: Session, events: seq<PageEvent>, observes: bool, follow: Option<PageId>, tree: Query,
                      closing: seq<PageEvent>, again: Query)
    requires Inv(s) && s.current.Some?
    ensures var b := Recovered(Clicked(s, events, observes, follow, tree), s.current, closing, again);
            s.current.value in b.pages ==> b.current == s.current
  {
    var clicked := Clicked(s, events, observes, follow, tree);
    ClickKeeps(s, events, observes, follow, tree);
    EventsKeep(clicked, closing);
    hide AfterEvents, Clicked;
  }

  // What an operation ends with, whatever it did in between.
  predicate Ends(s: Session, op: Operation, b: Session) {
    match op
    case Start(known) => b.current.Some? || (known.Some? && known.value !in s.pages && b == s)
    case Observe(tree) => if s.current.Some? && tree.Answers? then Observed(s, b, tree) else b == s
    case Interact(_, _, tree) => Observed(s, b, tree)
    case ClickNext(_, observes, _, tree, popup, _, _) =>
      if !popup then Observed(s, b, if observes then tree else Fails)
      else s.current.Some? && s.current.value in b.pages ==> b.current == s.current
    case SwitchPage(page, usable, tree) =>
      if page in s.pages && usable then b.current == Some(page) && Observed(s, b, tree) else b == s
    case ClosePage(page, _, _, tree) =>
      if page !in s.pages then b == s
      else
        && page !in b.pages && b.current != Some(page)
        && (s.active.None? || (tree.Answers? && b.current.Some?) ==> Observed(s, b, tree))
    case Callback(event) => event.Gone? ==> event.page !in b.pages
    case Shutdown =>
      && b.pages == map[] && b.current.None? && b.active.None? && b.refs == map[]
      && b.snapshotCounter == s.snapshotCounter && b.pageCounter == s.pageCounter
  }

  /** Interactions, switches and closes of the current page end with the snapshot they take of what is current
      then, or with none: an old id never survives them.  A switch ends on its page, a closed page is gone,
      and a click whose popup was unwanted ends on the page it started from if that is still there. */
  lemma OperationSays(s: Session, op: Operation)
    requires Inv(s)
    ensures Ends(s, op, Performed(s, op))
  {
    hide Clicked, Followed, Recovered, AfterEvents, PageGone, TakeSnapshot, Inv;
    match op {
      case Start(known) => StartSays(s, known);
      case Observe(tree) => TakeSays(s, tree);
      case Interact(events, follow, tree) => ClickSays(s, events, true, follow, tree);
      case ClickNext(events, observes, follow, tree, popup, closing, again) =>
        ClickSays(s, events, observes, follow, tree);
        if s.current.Some? {
          ClickNextSays(s, events, observes, follow, tree, closing, again);
        }
      case SwitchPage(page, usable, tree) => if page in s.pages { FollowSays(s, Some(page), tree); }
      case ClosePage(page, heir, events, tree) => CloseSays(s, page, heir, events, tree);
      case Callback(event) => EventSays(s, event);
      case Shutdown =>
    }
  }

  lemma StartSays(s: Session, known: Option<PageId>)
    requires Inv(s)
    ensures var b := OpenPage(s, known, true);
            b.current.Some? || (known.Some? && known.value !in s.pages && b == s)
  {
    OpenPageKeeps(s, known, true);
  }

  // -------------------------------------------------------- which rejected ids have a chance left

  lemma PerformMore(s: Session, ops: seq<Operation>, op: Operation)
    ensures PerformedAll(s, ops + [op]) == Performed(PerformedAll(s, ops), op)
  {
    assert (ops + [op])[..|ops|] == ops;
  }

  // One more page: another one pops up in a session with a page, any other session is started again.
  function OnePage(s: Session): seq<Operation> {
    if s.current.Some? then [Callback(Opened(None))] else [Shutdown, Start(None)]
  }

  lemma NewPageIsNext(s: Session, makeCurrent: bool)
    ensures var b := OpenPage(s, None, makeCurrent);
            b.pageCounter == s.pageCounter + 1 && b.pageCounter in b.pages && b.snapshotCounter == s.snapshotCounter
  {
  }

  lemma OnePageOpens(s: Session)
    ensures var b := PerformedAll(s, OnePage(s));
            b.pageCounter == s.pageCounter + 1 && b.pageCounter in b.pages && b.snapshotCounter == s.snapshotCounter
  {
    hide OpenPage, PerformedAll;
    if s.current.Some? {
      RunOfOne(s, Callback(Opened(None)));
      NewPageIsNext(s, false);
    } else {
      RunOfOne(s, Shutdown);
      PerformMore(s, [Shutdown], Start(None));
      assert [Shutdown] + [Start(None)] == [Shutdown, Start(None)];
      NewPageIsNext(ClosedResources(s), true);
    }
  }

  lemma RunOfOne(s: Session, op: Operation)
    ensures PerformedAll(s, [op]) == Performed(s, op)
  {
    hide Performed;
    assert [op][..0] == [];
  }

  // Pages are opened until the wanted number is reached.
  lemma {:induction false} PagesCanOpen(s: Session, n: nat) returns (ops: seq<Operation>)
    requires n >= s.pageCounter
    ensures var b := PerformedAll(s, ops);
            && b.pageCounter == n && b.snapshotCounter == s.snapshotCounter
            && (n > s.pageCounter ==> n in b.pages)
    decreases n
  {
    hide Performed;
    ops := [];
    if n > s.pageCounter {
      ops := PagesCanOpen(s, n - 1);
      var a := PerformedAll(s, ops);
      OnePageOpens(a);
      RunsJoin(s, ops, OnePage(a));
      ops := ops + OnePage(a);
    }
  }

  // Snapshots of the page are taken until the wanted serial is reached.
  lemma {:induction false} SnapshotsCanBeTaken(s: Session, page: PageId, n: nat) returns (ops: seq<Operation>)
    requires s.current == Some(page) && page in s.pages && n >= s.snapshotCounter
    ensures var b := PerformedAll(s, ops);
            && b.current == Some(page) && page in b.pages && b.snapshotCounter == n
            && (n > s.snapshotCounter ==> b.active == Some(SnapshotId(page, n)))
    decreases n
  {
    ops := [];
    if n > s.snapshotCounter {
      var tree := Answers(map[], true);
      ops := SnapshotsCanBeTaken(s, page, n - 1);
      PerformMore(s, ops, Observe(tree));
      ops := ops + [Observe(tree)];
    }
  }

  lemma {:induction false} RunsJoin(s: Session, first: seq<Operation>, rest: seq<Operation>)
    ensures PerformedAll(s, first + rest) == PerformedAll(PerformedAll(s, first), rest)
  {
    hide Performed;
    if rest == [] {
      assert first + rest == first;
    } else {
      var n := |rest| - 1;
      RunsJoin(s, first, rest[..n]);
      assert (first + rest)[..|first| + n] == first + rest[..n] && (first + rest)[|first| + n] == rest[n];
    }
  }

  lemma SwitchedThere(s: Session, page: PageId)
    requires page in s.pages
    ensures var b := Performed(s, SwitchPage(page, true, Fails));
            b.current == Some(page) && page in b.pages && b.snapshotCounter == s.snapshotCounter
  {
  }

  // From any state in which the page is registered.
  lemma PageCanReach(s: Session, id: SnapshotId) returns (ops: seq<Operation>)
    requires id.page in s.pages && id.serial > s.snapshotCounter
    ensures PerformedAll(s, ops).active == Some(id)
  {
    hide Performed, PerformedAll;
    var switching := SwitchPage(id.page, true, Fails);
    SwitchedThere(s, id.page);
    RunOfOne(s, switching);
    var taking := SnapshotsCanBeTaken(Performed(s, switching), id.page, id.serial);
    RunsJoin(s, [switching], taking);
    ops := [switching] + taking;
  }

  /** An id that is not spent, however it came to be guessed, is accepted after some run. */
  lemma GuessedIdIsAcceptedLater(s: Session, id: SnapshotId) returns (ops: seq<Operation>)
    requires Inv(s) && !Spent(s, id)
    ensures PerformedAll(s, ops).active == Some(id)
  {
    hide Inv, Performed;
    ops := [];
    if s.active != Some(id) {
      if id.page !in s.pages {
        ops := PagesCanOpen(s, id.page);
      }
      var a := PerformedAll(s, ops);
      hide PerformedAll;
      var reaching := PageCanReach(a, id);
      RunsJoin(s, ops, reaching);
      ops := ops + reaching;
    }
  }

  /** Exactly which ids are rejected for good: those whose serial is used up or whose page is closed, unless
      they are accepted right now. */
  lemma RejectedForGoodExactlyWhen(s: Session, id: SnapshotId)
    requires Inv(s)
    ensures Spent(s, id) <==> forall ops: seq<Operation> :: PerformedAll(s, ops).active != Some(id)
  {
    if Spent(s, id) {
      forall ops: seq<Operation> ensures PerformedAll(s, ops).active != Some(id) {
        OperationsKeep(s, ops);
      }
    } else {
      var ops := GuessedIdIsAcceptedLater(s, id);
    }
  }

  // -------------------------------------------------------------------- the session object

  class BrowserSession {
    var pages: map<PageId, PageState>
    var currentPageId: Option<PageId>
    var refToBackendId: Refs
    var activeSnapshotId: Option<SnapshotId>
    var snapshotCounter: nat
    var pageCounter: nat
    ghost var log: seq<Fact>

    ghost function View(): Session
      reads this
    {
      Session(pages, currentPageId, refToBackendId, activeSnapshotId, snapshotCounter, pageCounter, log)
    }

    constructor ()
      ensures View() == NewSession && Inv(View())
    {
      pages, currentPageId, refToBackendId, activeSnapshotId := map[], None, map[], None;
      snapshotCounter, pageCounter, log := 0, 0, [];
    }

    /** Accepted iff it is the latest snapshot of the current page with no invalidation since, and the
        refs in force are then the ones that snapshot built. */
    method ValidateSnapshot(id: SnapshotId) returns (ok: bool)
      requires Inv(View())
      ensures ok <==> currentPageId.Some?
                      && Latest(log, currentPageId.value) == Some(Issued(id, refToBackendId))
    {
      ok := activeSnapshotId == Some(id);
      if currentPageId.Some? && Latest(log, currentPageId.value).Some? {
        LatestIsIssued(log, currentPageId.value);
      }
    }

    method InvalidateSnapshot()
      modifies this
      ensures View() == Invalidate(old(View()))
      ensures activeSnapshotId.None? && refToBackendId == map[]
      ensures currentPageId.Some? && currentPageId.value in pages ==>
                pages == old(pages)[currentPageId.value := PageState(map[], None)]
    {
      refToBackendId := map[];
      activeSnapshotId := None;
      if currentPageId.Some? && currentPageId.value in pages {
        pages := pages[currentPageId.value := PageState(map[], None)];
        log := log + [Invalidated(currentPageId.value)];
      }
    }

    method SelectPage(page: PageId, invalidate: bool)
      requires page in pages
      modifies this
      ensures View() == Select(old(View()), page, invalidate)
    {
      var state := pages[page];
      currentPageId := Some(page);
      refToBackendId := state.refs;
      activeSnapshotId := state.active;
      if invalidate {
        InvalidateSnapshot();
      } else if state.active.None? {
        GiveUp(page);
      }
    }

    ghost method GiveUp(page: PageId)
      modifies this`log
      ensures log == if Latest(old(log), page).Some? then old(log) + [Invalidated(page)] else old(log)
    {
      if Latest(log, page).Some? {
        log := log + [Invalidated(page)];
      }
    }

    // The tree is queried first: when that raises nothing has changed.
    method CaptureSnapshot(tree: Query)
      modifies this
      ensures View() == TakeSnapshot(old(View()), tree)
    {
      if currentPageId.None? || currentPageId.value !in pages || tree.Fails? {
        return;
      }
      refToBackendId := tree.refs;
      pages := pages[currentPageId.value := pages[currentPageId.value].(refs := refToBackendId)];
      snapshotCounter := snapshotCounter + 1;
      activeSnapshotId := Some(SnapshotId(currentPageId.value, snapshotCounter));
      log := log + [Issued(activeSnapshotId.value, tree.refs)];
      if !tree.formats {
        return;
      }
      pages := pages[currentPageId.value := pages[currentPageId.value].(active := activeSnapshotId)];
    }

    method RegisterPage(known: Option<PageId>, makeCurrent: bool)
      modifies this
      ensures View() == OpenPage(old(View()), known, makeCurrent)
    {
      if known.Some? {
        if makeCurrent && known.value in pages {
          SelectPage(known.value, true);
        }
        return;
      }
      pageCounter := pageCounter + 1;
      pages := pages[pageCounter := PageState(map[], None)];
      if makeCurrent || currentPageId.None? {
        SelectPage(pageCounter, false);
      }
    }

    method OnPageClosed(page: PageId, heir: PageId)
      modifies this
      ensures View() == PageGone(old(View()), page, heir)
    {
      if page !in pages {
        return;
      }
      pages := pages - {page};
      if currentPageId == Some(page) {
        if heir !in pages {
          currentPageId, refToBackendId, activeSnapshotId := None, map[], None;
        } else {
          SelectPage(heir, true);
        }
      }
    }

    // ------------------------------------------------------------ whole operations

    method RunCallback(event: PageEvent)
      modifies this
      ensures View() == AfterEvent(old(View()), event)
    {
      match event {
        case Opened(known) => RegisterPage(known, false);
        case Gone(page, heir) => OnPageClosed(page, heir);
      }
    }

    method RunCallbacks(events: seq<PageEvent>)
      modifies this
      ensures View() == AfterEvents(old(View()), events)
    {
      hide AfterEvent;
      for i := 0 to |events|
        invariant View() == AfterEvents(old(View()), events[..i])
      {
        RunCallback(events[i]);
        assert events[..i + 1][..i] == events[..i];
      }
      assert events[..|events|] == events;
    }

    method FollowAndObserve(follow: Option<PageId>, tree: Query)
      modifies this
      ensures View() == Followed(old(View()), follow, tree)
    {
      hide Select, TakeSnapshot;
      if follow.Some? && follow.value in pages {
        SelectPage(follow.value, true);
      }
      CaptureSnapshot(tree);
    }

    // Navigation, clicks, history moves: invalidate, let the page react, observe what is there now.
    method Interact(events: seq<PageEvent>, follow: Option<PageId>, tree: Query)
      requires Inv(View())
      modifies this
      ensures View() == Performed(old(View()), Operation.Interact(events, follow, tree))
      ensures Inv(View()) && NoRevival(old(View()), View())
    {
      hide Inv, NoRevival, Followed, AfterEvents, Invalidate;
      OperationKeeps(View(), Operation.Interact(events, follow, tree));
      InvalidateSnapshot();
      RunCallbacks(events);
      FollowAndObserve(follow, tree);
    }

    method ClickNext(events: seq<PageEvent>, observes: bool, follow: Option<PageId>, tree: Query,
                     popup: bool, closing: seq<PageEvent>, again: Query)
      requires Inv(View())
      modifies this
      ensures View() == Performed(old(View()),
                Operation.ClickNext(events, observes, follow, tree, popup, closing, again))
      ensures Inv(View()) && NoRevival(old(View()), View())
    {
      hide Inv, NoRevival, Followed, AfterEvents, Invalidate, Recovered;
      OperationKeeps(View(), Operation.ClickNext(events, observes, follow, tree, popup, closing, again));
      var original := currentPageId;
      InvalidateSnapshot();
      RunCallbacks(events);
      if observes {
        FollowAndObserve(follow, tree);
      }
      if popup {
        RecoverOriginal(original, closing, again);
      }
    }

    // Closes what popped up and goes back to the original page, if it is still there.
    method RecoverOriginal(original: Option<PageId>, closing: seq<PageEvent>, again: Query)
      modifies this
      ensures View() == Recovered(old(View()), original, closing, again)
    {
      hide AfterEvents, Select, TakeSnapshot;
      RunCallbacks(closing);
      if original.None? || original.value !in pages {
        return;
      }
      SelectPage(original.value, false);
      CaptureSnapshot(again);
    }

    method SwitchPage(page: PageId, usable: bool, tree: Query)
      requires Inv(View())
      modifies this
      ensures View() == Performed(old(View()), Operation.SwitchPage(page, usable, tree))
      ensures Inv(View()) && NoRevival(old(View()), View())
    {
      hide Inv, NoRevival, Followed;
      OperationKeeps(View(), Operation.SwitchPage(page, usable, tree));
      if page !in pages || !usable {
        return;
      }
      FollowAndObserve(Some(page), tree);
    }

    method ClosePage(page: PageId, heir: PageId, events: seq<PageEvent>, tree: Query)
      requires Inv(View())
      modifies this
      ensures View() == Performed(old(View()), Operation.ClosePage(page, heir, events, tree))
      ensures Inv(View()) && NoRevival(old(View()), View())
    {
      hide Inv, NoRevival, AfterEvents, PageGone, TakeSnapshot;
      OperationKeeps(View(), Operation.ClosePage(page, heir, events, tree));
      if page !in pages {
        return;
      }
      RunCallbacks(events);  // what close() itself sets off
      OnPageClosed(page, heir);
      CaptureSnapshot(tree);
    }

    method CloseResources()
      requires Inv(View())
      modifies this
      ensures View() == Performed(old(View()), Shutdown)
      ensures Inv(View()) && NoRevival(old(View()), View())
    {
      ShutdownKeeps(View());
      pages, currentPageId, refToBackendId, activeSnapshotId := map[], None, map[], None;
    }

    method Perform(op: Operation)
      requires Inv(View())
      modifies this
      ensures View() == Performed(old(View()), op)
      ensures Inv(View()) && NoRevival(old(View()), View())
    {
      hide Inv, NoRevival, OpenPage, TakeSnapshot, Clicked, Recovered, AfterEvent, Followed, PageGone, AfterEvents;
      OperationKeeps(View(), op);
      match op {
        case Start(known) => RegisterPage(known, true);
        case Observe(tree) => CaptureSnapshot(tree);
        case Interact(events, follow, tree) => Interact(events, follow, tree);
        case ClickNext(events, observes, follow, tree, popup, closing, again) =>
          ClickNext(events, observes, follow, tree, popup, closing, again);
        case SwitchPage(page, usable, tree) => SwitchPage(page, usable, tree);
        case ClosePage(page, heir, events, tree) => ClosePage(page, heir, events, tree);
        case Callback(event) => RunCallback(event);
        case Shutdown => CloseResources();
      }
    }

    /** However the session goes on - page switches, popups, closed pages, pagination, restart - a rejected id
        whose serial is used up or whose page is closed is never accepted again. */
    method PerformAll(ops: seq<Operation>)
      requires Inv(View())
      modifies this
      ensures View() == PerformedAll(old(View()), ops) && Inv(View())
      ensures forall id :: Spent(old(View()), id) ==> Spent(View(), id) && activeSnapshotId != Some(id)
    {
      hide Inv, Performed;
      OperationsKeep(View(), ops);
      for i := 0 to |ops|
        invariant Inv(View()) && View() == PerformedAll(old(View()), ops[..i])
      {
        Perform(ops[i]);
        assert ops[..i + 1][..i] == ops[..i];
      }
      assert ops[..|ops|] == ops;
    }
  }
}
