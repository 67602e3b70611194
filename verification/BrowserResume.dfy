/** A fresh browser opened on a checkpoint stands where the session stood. */
module BrowserResume {
  import opened Basics
  import opened Sorting
  import opened Checkpoints
  import opened Browser
  import Capture

  /** Actions only add: Posts at the end of the scan, anchors anywhere. */
  ghost predicate AppendOnly<S(!new)>(site: Site<S>) {
    forall s, a | site.act(s, a).Some? ::
      && PostIds(site.view(s).posts) <= PostIds(site.view(site.act(s, a).value).posts)
      && AnchorIds(site.view(s)) <= AnchorIds(site.view(site.act(s, a).value))
  }

  /** Every identified Post has an anchor. */
  ghost predicate Anchored<S(!new)>(site: Site<S>) {
    forall s :: Elements(PostIds(site.view(s).posts)) <= AnchorIds(site.view(s))
  }

  // --------------------------------------------------- admitted identifiers

  lemma {:induction false} AdmitBounds(start: set<string>, ids: seq<string>, known: set<string>, max: nat)
    requires |start| <= max && start !! known
    ensures |Admit(start, ids, known, max)| <= max && Admit(start, ids, known, max) !! known
    ensures start <= Admit(start, ids, known, max) <= start + Elements(ids)
  {
    if ids != [] {
      AdmitBounds(start, ids[..|ids| - 1], known, max);
      assert ids == ids[..|ids| - 1] + [ids[|ids| - 1]];
    }
  }

  lemma {:induction false} AdmitSplit(start: set<string>, a: seq<string>, b: seq<string>, known: set<string>, max: nat)
    ensures Admit(start, a + b, known, max) == Admit(Admit(start, a, known, max), b, known, max)
    decreases |b|
  {
    if b == [] {
      assert a + b == a;
    } else {
      assert (a + b)[..|a + b| - 1] == a + b[..|b| - 1];
      AdmitSplit(start, a, b[..|b| - 1], known, max);
    }
  }

  /** What has been admitted is not admitted again, and a full set stays. */
  lemma {:induction false} AdmitNothing(taken: set<string>, ids: seq<string>, known: set<string>, max: nat)
    requires forall id | id in ids :: id in taken || id in known || |taken| >= max
    ensures Admit(taken, ids, known, max) == taken
  {
    if ids != [] {
      AdmitNothing(taken, ids[..|ids| - 1], known, max);
      assert ids[|ids| - 1] in ids;
    }
  }

  lemma {:induction false} AdmittedOrFull(ids: seq<string>, known: set<string>, max: nat, id: string)
    requires id in ids
    ensures id in Admit({}, ids, known, max) || id in known || |Admit({}, ids, known, max)| >= max
  {
    var n := |ids| - 1;
    if id in ids[..n] {
      AdmittedOrFull(ids[..n], known, max, id);
      AdmitBounds({}, ids[..n], known, max);
    } else {
      assert ids == ids[..n] + [ids[n]];
    }
  }

  /** Scanning a longer page after a shorter one admits what scanning the longer
      page alone admits. */
  lemma {:induction false} AdmitLonger(a: seq<string>, b: seq<string>, known: set<string>, max: nat)
    requires a <= b
    ensures Admit(Admit({}, a, known, max), b, known, max) == Admit({}, b, known, max)
  {
    var taken := Admit({}, a, known, max);
    assert b == a + b[|a|..];
    AdmitSplit(taken, a, b[|a|..], known, max);
    AdmitSplit({}, a, b[|a|..], known, max);
    forall id | id in a ensures id in taken || id in known || |taken| >= max {
      AdmittedOrFull(a, known, max, id);
    }
    AdmitNothing(taken, a, known, max);
  }

  /** The unknown identifiers before the first place of `id`. */
  function UnknownBefore(ids: seq<string>, id: string, known: set<string>): set<string> {
    if ids == [] || ids[0] == id then {}
    else UnknownBefore(ids[1..], id, known) + if ids[0] in known then {} else {ids[0]}
  }

  lemma {:induction false} UnknownOfPrefix(ids: seq<string>, last: string, id: string, known: set<string>)
    ensures id in ids ==> UnknownBefore(ids + [last], id, known) == UnknownBefore(ids, id, known)
    ensures id !in ids && id == last ==> UnknownBefore(ids + [last], id, known) == Elements(ids) - known
  {
    if ids == [] {
      assert [last][1..] == [];
    } else {
      assert (ids + [last])[1..] == ids[1..] + [last];
      UnknownOfPrefix(ids[1..], last, id, known);
      assert Elements(ids) == {ids[0]} + Elements(ids[1..]);
    }
  }

  /** Everything unknown is admitted until the set is full. */
  lemma {:induction false} NotFullIsAll(ids: seq<string>, known: set<string>, max: nat)
    ensures |Elements(ids) - known| < max ==> Admit({}, ids, known, max) == Elements(ids) - known
    ensures |Elements(ids) - known| >= max ==> |Admit({}, ids, known, max)| >= max
  {
    AdmitBounds({}, ids, known, max);
    var taken := Admit({}, ids, known, max);
    if |taken| < max {
      forall id | id in Elements(ids) - known ensures id in taken {
        AdmittedOrFull(ids, known, max, id);
      }
      assert taken == Elements(ids) - known;
    } else {
      assert taken <= Elements(ids) - known;
      SubsetSize(taken, Elements(ids) - known);
    }
  }

  lemma {:induction false} SubsetSize<T>(a: set<T>, b: set<T>)
    requires a <= b
    ensures |a| <= |b|
  {
    if a != {} {
      var x :| x in a;
      SubsetSize(a - {x}, b - {x});
    }
  }

  /** Admitted are exactly the first `max` unknown identifiers in feed order. */
  lemma {:induction false} AdmitsTheFirst(ids: seq<string>, known: set<string>, max: nat, id: string)
    ensures id in Admit({}, ids, known, max)
            <==> id in ids && id !in known && |UnknownBefore(ids, id, known)| < max
  {
    if ids != [] {
      var n := |ids| - 1;
      var front, last := ids[..n], ids[n];
      assert ids == front + [last];
      AdmitsTheFirst(front, known, max, id);
      UnknownOfPrefix(front, last, id, known);
      NotFullIsAll(front, known, max);
    }
  }

  // ------------------------------------------------------- the next action

  /** What was captured does not matter to the next action: once enough Posts are
      captured, enough are on the page. */
  lemma {:induction false} DeriveIgnoresCaptured(cfg: Config, v: View, completed: seq<string>, captured: set<string>)
    requires captured <= AnchorIds(v) && cfg.maxRecent > 0
    ensures Derive(cfg, v, completed, captured) == Derive(cfg, v, completed, {})
  {
    SubsetSize(captured, AnchorIds(v));
  }

  predicate Expandable(cfg: Config, v: View, m: Marked) {
    m.visible && Passes(cfg, Permitted(cfg, v), m.value)
  }

  lemma {:induction false} MarkFound(cfg: Config, permitted: set<string>, marks: seq<Marked>)
    ensures FirstMark(cfg, permitted, marks).None?
            <==> forall m | m in marks :: !(m.visible && Passes(cfg, permitted, m.value))
    ensures FirstMark(cfg, permitted, marks).Some? ==>
              exists m | m in marks ::
                m.visible && Passes(cfg, permitted, m.value) && m.value == FirstMark(cfg, permitted, marks).value
  {
    if marks != [] && !(marks[0].visible && Passes(cfg, permitted, marks[0].value)) {
      MarkFound(cfg, permitted, marks[1..]);
    }
  }

  lemma {:induction false} ButtonFound(cfg: Config, permitted: set<string>, buttons: seq<Button>)
    ensures FirstButton(cfg, permitted, buttons).None?
            <==> forall b | b in buttons :: ButtonKind(cfg, permitted, b).None?
    ensures FirstButton(cfg, permitted, buttons).Some? ==>
              exists b | b in buttons ::
                && ButtonKind(cfg, permitted, b).Some?
                && FirstButton(cfg, permitted, buttons).value.text == Some(b.caption)
                && FirstButton(cfg, permitted, buttons).value.kind == ButtonKind(cfg, permitted, b).value
  {
    if buttons != [] && ButtonKind(cfg, permitted, buttons[0]).None? {
      ButtonFound(cfg, permitted, buttons[1..]);
    }
  }

  /** Nothing on the page may be expanded. */
  predicate NothingToExpand(cfg: Config, v: View) {
    && (forall m | m in v.postMarks + v.commentMarks :: !Expandable(cfg, v, m))
    && (forall b | b in v.buttons :: ButtonKind(cfg, Permitted(cfg, v), b).None?)
  }

  lemma NothingFound(cfg: Config, v: View)
    ensures var permitted := Permitted(cfg, v);
            NothingToExpand(cfg, v)
            <==> FirstMark(cfg, permitted, v.postMarks).None? && FirstMark(cfg, permitted, v.commentMarks).None?
                 && FirstButton(cfg, permitted, v.buttons).None?
  {
    hide Permitted, Passes, ButtonKind, FirstMark, FirstButton;
    var permitted := Permitted(cfg, v);
    MarkFound(cfg, permitted, v.postMarks);
    MarkFound(cfg, permitted, v.commentMarks);
    ButtonFound(cfg, permitted, v.buttons);
    if NothingToExpand(cfg, v) {
      forall m | m in v.postMarks || m in v.commentMarks ensures !(m.visible && Passes(cfg, permitted, m.value)) {
        assert m in v.postMarks + v.commentMarks && !Expandable(cfg, v, m);
      }
    }
  }

  /** There is no next action exactly when nothing may be expanded and the
      boundary is reached, and a scroll exactly when nothing may be expanded and
      the boundary is not reached. */
  lemma {:induction false} DeriveChooses(cfg: Config, v: View, completed: seq<string>, captured: set<string>)
    ensures var a := Derive(cfg, v, completed, captured);
            && (a.None? <==> NothingToExpand(cfg, v) && BoundaryReached(cfg, v, captured))
            && (a.Some? && a.value.kind == "scroll"
                <==> NothingToExpand(cfg, v) && !BoundaryReached(cfg, v, captured))
  {
    hide Permitted, BoundaryReached, NothingToExpand, FirstMark, FirstButton;
    NothingFound(cfg, v);
    ButtonKinds(cfg, Permitted(cfg, v), v.buttons);
    assert "scroll"[0] != "expand_post"[0] && "scroll"[0] != "expand_comments"[0];
  }

  /** What is expanded is on the page, visible, not known and within the limit. */
  lemma {:induction false} DeriveExpands(cfg: Config, v: View, completed: seq<string>, captured: set<string>)
    requires Derive(cfg, v, completed, captured).Some?
    ensures var a := Derive(cfg, v, completed, captured).value;
            && (a.selector.Some? ==>
                  exists m | m in v.postMarks + v.commentMarks ::
                    Expandable(cfg, v, m) && a.key == a.kind + ":" + m.value)
            && (a.text.Some? ==>
                  exists b | b in v.buttons ::
                    ButtonKind(cfg, Permitted(cfg, v), b) == Some(a.kind) && a.text == Some(b.caption))
  {
    hide Permitted, BoundaryReached, Passes, ButtonKind, FirstMark, FirstButton;
    var permitted := Permitted(cfg, v);
    MarkFound(cfg, permitted, v.postMarks);
    MarkFound(cfg, permitted, v.commentMarks);
    ButtonFound(cfg, permitted, v.buttons);
    ButtonKinds(cfg, permitted, v.buttons);
    var first, second := FirstMark(cfg, permitted, v.postMarks), FirstMark(cfg, permitted, v.commentMarks);
    if first.Some? {
      var m :| m in v.postMarks && m.visible && Passes(cfg, permitted, m.value) && m.value == first.value;
      assert m in v.postMarks + v.commentMarks && Expandable(cfg, v, m);
    } else if second.Some? {
      var m :| m in v.commentMarks && m.visible && Passes(cfg, permitted, m.value) && m.value == second.value;
      assert m in v.postMarks + v.commentMarks && Expandable(cfg, v, m);
    }
  }

  lemma {:induction false} ButtonKinds(cfg: Config, permitted: set<string>, buttons: seq<Button>)
    ensures FirstButton(cfg, permitted, buttons).Some? ==>
              FirstButton(cfg, permitted, buttons).value.kind != "scroll"
              && FirstButton(cfg, permitted, buttons).value.selector.None?
  {
    assert "scroll"[0] != "expand_post"[0] && "scroll"[0] != "expand_comments"[0];
    if buttons != [] && ButtonKind(cfg, permitted, buttons[0]).None? { ButtonKinds(cfg, permitted, buttons[1..]); }
  }

  // ------------------------------------------------------------ the session

  /** The session after call `k`, each call given the checkpoint before it. */
  function Runs<S>(cfg: Config, site: Site<S>, k: nat): Result<(Session<S>, Rendered), string> {
    if k == 0 then Call(cfg, site, Opening(), None)
    else
      match Runs(cfg, site, k - 1)
      case Err(e) => Err(e)
      case Ok((s, r)) => if r.next.None? then Err("finished") else Call(cfg, site, s, r.next)
  }

  function AtRoot<S>(site: Site<S>): Session<S> {
    Opening<S>().(page := Some(site.root))
  }

  /** Doing the completed actions again from the root leads to the same page. */
  ghost predicate Retraceable<S(!new)>(cfg: Config, site: Site<S>, s: Session<S>) {
    ReplayKeys(cfg, site, AtRoot(site), s.completed)
    == Ok(AtRoot(site).(page := s.page, interactions := s.interactions, completed := s.completed))
  }

  /** A session between two calls. */
  ghost predicate Resting<S(!new)>(cfg: Config, site: Site<S>, s: Session<S>, k: nat) {
    && s.page.Some? && s.pages == k + 1
    && s.interactions == |s.completed| == k
    && s.captured == Admit({}, PostIds(site.view(s.page.value).posts), cfg.known, cfg.maxRecent)
    && s.pending == Derive(cfg, site.view(s.page.value), s.completed, s.captured)
    && Supported(site.view(site.root)).None?
    && Retraceable(cfg, site, s)
  }

  lemma CapturedAnchored<S(!new)>(cfg: Config, site: Site<S>, page: S)
    requires Anchored(site)
    ensures Admit({}, PostIds(site.view(page).posts), cfg.known, cfg.maxRecent) <= AnchorIds(site.view(page))
  {
    AdmitBounds({}, PostIds(site.view(page).posts), cfg.known, cfg.maxRecent);
  }

  /** The next checkpoint names the completed actions and the next one. */
  lemma RenderNext<S(!new)>(cfg: Config, site: Site<S>, s: Session<S>)
    requires s.page.Some? && Render(cfg, site, s).Ok?
    ensures var (s', r) := Render(cfg, site, s).value;
            var v := site.view(s.page.value);
            && s' == s.(pages := s.pages + 1, storage := s.storage + |r.raw|, empties := s'.empties,
                        captured := Admit(s.captured, PostIds(v.posts), cfg.known, cfg.maxRecent),
                        pending := Derive(cfg, v, s.completed, s'.captured))
            && s'.empties == (if v.progress then 0 else s.empties + 1)
            && r.raw == cfg.render(v, Kept(v.posts, s'.captured))
            && r.next == (if s'.pending.None? then None
                          else Some(Encode(cfg.codec, cfg.target, s.completed, s'.pending.value)))
            && Supported(v).None? && s'.storage <= cfg.maxStorage && (s'.empties > 1 ==> s'.empties < cfg.maxEmpty)
  {
    hide Admit, PostIds, Kept, Derive, Encode;
  }

  lemma FirstCall<S(!new)>(cfg: Config, site: Site<S>)
    requires Call(cfg, site, Opening(), None).Ok?
    ensures Supported(site.view(site.root)).None? && cfg.maxPages > 0
    ensures Call(cfg, site, Opening(), None) == Render(cfg, site, AtRoot(site))
  {
    hide Render;
  }

  lemma FirstRests<S(!new)>(cfg: Config, site: Site<S>)
    requires Runs(cfg, site, 0).Ok?
    ensures Resting(cfg, site, Runs(cfg, site, 0).value.0, 0)
  {
    hide Render, Admit, PostIds, Derive, Call;
    FirstCall(cfg, site);
    RenderNext(cfg, site, AtRoot(site));
    assert ReplayKeys(cfg, site, AtRoot(site), []) == Ok(AtRoot(site));
  }

  /** The next action, then the page it leads to. */
  function Onward<S>(cfg: Config, site: Site<S>, s: Session<S>, a: Action): Result<(Session<S>, Rendered), string>
    requires s.page.Some?
  {
    match Execute(cfg, site, s, a)
    case Err(e) => Err(e)
    case Ok(done) => Render(cfg, site, done.(pending := None))
  }

  /** A later call on an open page performs the checkpoint's own next action. */
  lemma NextCall<S(!new)>(cfg: Config, site: Site<S>, s: Session<S>, k: nat)
    requires Inverse(cfg.codec) && Resting(cfg, site, s, k) && s.pending.Some?
    ensures var c := Encode(cfg.codec, cfg.target, s.completed, s.pending.value);
            Call(cfg, site, s, Some(c))
            == if s.pages >= cfg.maxPages then Err("page_limit") else Onward(cfg, site, s, s.pending.value)
  {
    hide Render, Execute, Encode, Decode, Resting, Payload;
    CheckpointRoundTrip(cfg.codec, cfg.target, cfg.target, s.completed, s.pending.value);
    assert s.page.Some? by { RestingPage(cfg, site, s, k); }
  }

  lemma RestingPage<S(!new)>(cfg: Config, site: Site<S>, s: Session<S>, k: nat)
    requires Resting(cfg, site, s, k)
    ensures s.page.Some?
  {
  }

  lemma Executed<S(!new)>(cfg: Config, site: Site<S>, s: Session<S>, a: Action)
    requires s.page.Some? && Execute(cfg, site, s, a).Ok?
    ensures var page := site.act(s.page.value, a);
            && page.Some?
            && Execute(cfg, site, s, a).value
               == s.(page := page, interactions := s.interactions + 1, completed := s.completed + [a.key])
  {
  }

  /** Execution looks at the page and the count alone. */
  lemma ExecutedAlike<S(!new)>(cfg: Config, site: Site<S>, f: Session<S>, s: Session<S>, a: Action)
    requires s.page.Some? && f.page == s.page && f.interactions == s.interactions && f.completed == s.completed
    ensures Execute(cfg, site, f, a).Ok? == Execute(cfg, site, s, a).Ok?
    ensures Execute(cfg, site, s, a).Ok? ==>
              var done := Execute(cfg, site, s, a).value;
              Execute(cfg, site, f, a).value
              == f.(page := done.page, interactions := done.interactions, completed := done.completed)
    ensures Execute(cfg, site, s, a).Err? ==> Execute(cfg, site, f, a).error == Execute(cfg, site, s, a).error
  {
  }

  /** One action more can be retraced too. */
  lemma RetraceMore<S(!new)>(cfg: Config, site: Site<S>, s: Session<S>, done: Session<S>)
    requires Anchored(site) && cfg.maxRecent > 0 && s.page.Some? && s.pending.Some? && Retraceable(cfg, site, s)
    requires s.captured == Admit({}, PostIds(site.view(s.page.value).posts), cfg.known, cfg.maxRecent)
    requires s.pending == Derive(cfg, site.view(s.page.value), s.completed, s.captured)
    requires Execute(cfg, site, s, s.pending.value) == Ok(done)
    ensures Retraceable(cfg, site, done)
  {
    hide Execute, Derive, Admit, PostIds, Anchored;
    CapturedAnchored(cfg, site, s.page.value);
    DeriveIgnoresCaptured(cfg, site.view(s.page.value), s.completed, s.captured);
    var before := AtRoot(site).(page := s.page, interactions := s.interactions, completed := s.completed);
    Executed(cfg, site, s, s.pending.value);
    ExecutedAlike(cfg, site, before, s, s.pending.value);
    assert done.completed[..|done.completed| - 1] == s.completed;
  }

  /** Between any two calls the interaction count is the length of the history,
      the captured Posts are the first ones of the feed, and the history leads
      from a new page to this one. */
  lemma {:induction false} SessionRests<S(!new)>(cfg: Config, site: Site<S>, k: nat)
    requires Inverse(cfg.codec) && AppendOnly(site) && Anchored(site) && cfg.maxRecent > 0
    requires Runs(cfg, site, k).Ok?
    ensures Resting(cfg, site, Runs(cfg, site, k).value.0, k)
    ensures var (s, r) := Runs(cfg, site, k).value;
            r.next == if s.pending.None? then None
                      else Some(Encode(cfg.codec, cfg.target, s.completed, s.pending.value))
  {
    hide Render, Admit, PostIds, Derive, Call, Execute, AppendOnly, Anchored, Encode, Retraceable;
    if k == 0 {
      FirstRests(cfg, site);
      FirstCall(cfg, site);
      RenderNext(cfg, site, AtRoot(site));
    } else {
      var (s, r) := Runs(cfg, site, k - 1).value;
      SessionRests(cfg, site, k - 1);
      NextCall(cfg, site, s, k - 1);
      var done := Execute(cfg, site, s, s.pending.value).value;
      Executed(cfg, site, s, s.pending.value);
      RetraceMore(cfg, site, s, done);
      var there := done.(pending := None);
      RenderNext(cfg, site, there);
      FeedGrows(site, s.page.value, s.pending.value);
      AdmitLonger(PostIds(site.view(s.page.value).posts), PostIds(site.view(done.page.value).posts),
                  cfg.known, cfg.maxRecent);
      var s' := Runs(cfg, site, k).value.0;
      RetraceSame(cfg, site, done, s');
    }
  }

  lemma RetraceSame<S(!new)>(cfg: Config, site: Site<S>, done: Session<S>, s: Session<S>)
    requires Retraceable(cfg, site, done)
    requires s.page == done.page && s.interactions == done.interactions && s.completed == done.completed
    ensures Retraceable(cfg, site, s)
  {
  }

  lemma FeedGrows<S(!new)>(site: Site<S>, page: S, a: Action)
    requires AppendOnly(site) && site.act(page, a).Some?
    ensures PostIds(site.view(page).posts) <= PostIds(site.view(site.act(page, a).value).posts)
  {
  }

  // ----------------------------------------------------------- the resume

  /** The same stand, with counters that are no higher. */
  ghost predicate SameStand<S(!new)>(f: Session<S>, s: Session<S>) {
    && f.page == s.page && f.interactions == s.interactions && f.completed == s.completed
    && f.captured == s.captured && f.pending == s.pending
    && f.pages <= s.pages && f.storage <= s.storage && f.empties <= s.empties
  }

  lemma RenderAlike<S(!new)>(cfg: Config, site: Site<S>, f: Session<S>, s: Session<S>)
    requires s.page.Some? && f.page == s.page && f.interactions == s.interactions && f.completed == s.completed
    requires f.pages <= s.pages && f.storage <= s.storage && f.empties <= s.empties
    requires var ids := PostIds(site.view(s.page.value).posts);
             Admit(f.captured, ids, cfg.known, cfg.maxRecent) == Admit(s.captured, ids, cfg.known, cfg.maxRecent)
    requires Render(cfg, site, s).Ok?
    ensures Render(cfg, site, f).Ok?
    ensures Render(cfg, site, f).value.1 == Render(cfg, site, s).value.1
    ensures SameStand(Render(cfg, site, f).value.0, Render(cfg, site, s).value.0)
  {
    hide Admit, PostIds, Kept, Derive, Encode;
  }

  /** Opening a fresh browser on checkpoint `k` gives the page and the next
      checkpoint that the uninterrupted session had at step `k`, and leaves the
      fresh session standing where that one stood. */
  lemma {:induction false} FreshOpensAlike<S(!new)>(cfg: Config, site: Site<S>, k: nat)
    requires Inverse(cfg.codec) && AppendOnly(site) && Anchored(site) && cfg.maxRecent > 0
    requires k > 0 && Runs(cfg, site, k).Ok?
    ensures var c := Runs(cfg, site, k - 1).value.1.next;
            var reopened := Call(cfg, site, Opening(), c);
            && c.Some? && reopened.Ok?
            && reopened.value.1 == Runs(cfg, site, k).value.1
            && SameStand(reopened.value.0, Runs(cfg, site, k).value.0)
  {
    hide Render, Admit, PostIds, Derive, Execute, AppendOnly, Anchored, Encode, Decode, ReplayKeys, Call, Payload;
    var (s, r) := Runs(cfg, site, k - 1).value;
    SessionRests(cfg, site, k - 1);
    var page := s.page.value;
    NextCall(cfg, site, s, k - 1);
    CheckpointRoundTrip(cfg.codec, cfg.target, cfg.target, s.completed, s.pending.value);
    CapturedAnchored(cfg, site, page);
    DeriveIgnoresCaptured(cfg, site.view(page), s.completed, s.captured);
    var there := AtRoot(site).(page := s.page, interactions := s.interactions, completed := s.completed,
                               pending := s.pending);
    FreshCall(cfg, site, r.next.value, s.completed, s.pending.value, there);
    var done := Execute(cfg, site, s, s.pending.value).value;
    Executed(cfg, site, s, s.pending.value);
    ExecutedAlike(cfg, site, there, s, s.pending.value);
    FeedGrows(site, page, s.pending.value);
    AdmitLonger(PostIds(site.view(page).posts), PostIds(site.view(done.page.value).posts), cfg.known, cfg.maxRecent);
    RenderAlike(cfg, site, Execute(cfg, site, there, s.pending.value).value.(pending := None), done.(pending := None));
  }

  /** A call on a new browser whose retrace succeeds. */
  lemma FreshCall<S(!new)>(
    cfg: Config, site: Site<S>, checkpoint: string, completed: seq<string>, pending: Action, there: Session<S>)
    requires Decode(cfg.codec, cfg.target, checkpoint) == Ok((completed, pending)) && cfg.maxPages > 0
    requires Supported(site.view(site.root)).None? && there.page.Some? && there.completed == completed
    requires there.pending == Some(pending)
    requires ReplayKeys(cfg, site, AtRoot(site), completed) == Ok(there.(pending := None))
    requires Derive(cfg, site.view(there.page.value), completed, there.captured) == Some(pending)
    ensures Call(cfg, site, Opening(), Some(checkpoint))
            == Onward(cfg, site, there, pending)
  {
    hide Render, Derive, Execute, Decode, ReplayKeys, Payload, Supported;
    assert EnsurePage(cfg, site, Opening(), Some(checkpoint)) == Ok(there);
  }

  /** From the same stand, the next call gives the same page and checkpoint. */
  lemma CallsAlike<S(!new)>(cfg: Config, site: Site<S>, f: Session<S>, s: Session<S>, checkpoint: string)
    requires s.page.Some? && SameStand(f, s) && Call(cfg, site, s, Some(checkpoint)).Ok?
    ensures Call(cfg, site, f, Some(checkpoint)).Ok?
    ensures Call(cfg, site, f, Some(checkpoint)).value.1 == Call(cfg, site, s, Some(checkpoint)).value.1
    ensures SameStand(Call(cfg, site, f, Some(checkpoint)).value.0, Call(cfg, site, s, Some(checkpoint)).value.0)
  {
    hide Render, Execute, Decode, Payload, Admit, PostIds;
    var (completed, pending) := Decode(cfg.codec, cfg.target, checkpoint).value;
    ExecutedAlike(cfg, site, f, s, pending);
    Executed(cfg, site, s, pending);
    var done := Execute(cfg, site, s, pending).value;
    RenderAlike(cfg, site, Execute(cfg, site, f, pending).value.(pending := None), done.(pending := None));
  }

  /** `j` more calls, each given the checkpoint before it. */
  function Further<S>(cfg: Config, site: Site<S>, start: (Session<S>, Rendered), j: nat)
    : Result<(Session<S>, Rendered), string>
  {
    if j == 0 then Ok(start)
    else
      match Further(cfg, site, start, j - 1)
      case Err(e) => Err(e)
      case Ok((s, r)) => if r.next.None? then Err("finished") else Call(cfg, site, s, r.next)
  }

  lemma {:induction false} RunsFurther<S(!new)>(cfg: Config, site: Site<S>, k: nat, j: nat)
    requires Runs(cfg, site, k).Ok?
    ensures Runs(cfg, site, k + j) == Further(cfg, site, Runs(cfg, site, k).value, j)
  {
    hide Call;
    if j > 0 { RunsFurther(cfg, site, k, j - 1); }
  }

  /** A browser reopened on any checkpoint goes on exactly as the session would
      have: page by page the same bytes and the same checkpoints. */
  lemma {:induction false} ReopenedGoesOn<S(!new)>(cfg: Config, site: Site<S>, k: nat, j: nat)
    requires Inverse(cfg.codec) && AppendOnly(site) && Anchored(site) && cfg.maxRecent > 0
    requires k > 0 && Runs(cfg, site, k + j).Ok? && Runs(cfg, site, k).Ok?
    ensures var reopened := Call(cfg, site, Opening(), Runs(cfg, site, k - 1).value.1.next);
            && reopened.Ok?
            && var further := Further(cfg, site, reopened.value, j);
               && further.Ok? && further.value.1 == Runs(cfg, site, k + j).value.1
               && SameStand(further.value.0, Runs(cfg, site, k + j).value.0)
    decreases j
  {
    hide Call, AppendOnly, Anchored, SameStand;
    FreshOpensAlike(cfg, site, k);
    if j > 0 {
      ReopenedGoesOn(cfg, site, k, j - 1);
      var reopened := Call(cfg, site, Opening(), Runs(cfg, site, k - 1).value.1.next).value;
      var (s, r) := Runs(cfg, site, k + j - 1).value;
      SessionPage(cfg, site, k + j - 1);
      CallsAlike(cfg, site, Further(cfg, site, reopened, j - 1).value.0, s, r.next.value);
    }
  }

  lemma SessionPage<S(!new)>(cfg: Config, site: Site<S>, k: nat)
    requires Inverse(cfg.codec) && AppendOnly(site) && Anchored(site) && cfg.maxRecent > 0
    requires Runs(cfg, site, k).Ok?
    ensures Runs(cfg, site, k).value.0.page.Some?
  {
    hide Runs, Retraceable, Derive, Admit;
    SessionRests(cfg, site, k);
  }

  /** Every call after the first adds one action to the history, whatever the page
      does. */
  lemma {:induction false} HistoryCounts<S(!new)>(cfg: Config, site: Site<S>, k: nat)
    requires Runs(cfg, site, k).Ok?
    ensures var (s, r) := Runs(cfg, site, k).value;
            && s.page.Some? && |s.completed| == k
            && r.next == if s.pending.None? then None
                         else Some(Encode(cfg.codec, cfg.target, s.completed, s.pending.value))
  {
    hide Render, Admit, PostIds, Derive, Execute, Encode, Decode, Payload;
    if k == 0 {
      FirstCall(cfg, site);
      RenderNext(cfg, site, AtRoot(site));
    } else {
      HistoryCounts(cfg, site, k - 1);
      var (s, r) := Runs(cfg, site, k - 1).value;
      var done := Perform(cfg, site, s, r.next.value).value;
      Executed(cfg, site, s, Decode(cfg.codec, cfg.target, r.next.value).value.1);
      RenderNext(cfg, site, done);
    }
  }

  /** The history after call `k` has `k` actions, so no checkpoint occurs twice. */
  lemma {:induction false} CursorsNeverRepeat<S(!new)>(cfg: Config, site: Site<S>, i: nat, j: nat)
    requires Inverse(cfg.codec) && i < j && Runs(cfg, site, i).Ok? && Runs(cfg, site, j).Ok?
    ensures Runs(cfg, site, i).value.1.next.Some? ==>
              Runs(cfg, site, i).value.1.next != Runs(cfg, site, j).value.1.next
  {
    hide Runs, Encode;
    HistoryCounts(cfg, site, i);
    HistoryCounts(cfg, site, j);
    var s, s' := Runs(cfg, site, i).value.0, Runs(cfg, site, j).value.0;
    if s.pending.Some? && s'.pending.Some? {
      if Encode(cfg.codec, cfg.target, s.completed, s.pending.value)
         == Encode(cfg.codec, cfg.target, s'.completed, s'.pending.value) {
        CheckpointsDiffer(cfg.codec, cfg.target, s.completed, s.pending.value, s'.completed, s'.pending.value);
      }
    }
  }

  lemma {:induction false} RetraceKeeps<S(!new)>(cfg: Config, site: Site<S>, s: Session<S>, keys: seq<string>)
    requires s.page.Some? && ReplayKeys(cfg, site, s, keys).Ok?
    ensures ReplayKeys(cfg, site, s, keys).value.captured == s.captured
  {
    hide Derive, Execute;
    if keys != [] {
      var before := ReplayKeys(cfg, site, s, keys[..|keys| - 1]).value;
      RetraceKeeps(cfg, site, s, keys[..|keys| - 1]);
      var action := Derive(cfg, site.view(before.page.value), before.completed, before.captured).value;
      Executed(cfg, site, before, action);
    }
  }

  lemma EnsureKeeps<S(!new)>(cfg: Config, site: Site<S>, s: Session<S>, checkpoint: Option<string>)
    requires EnsurePage(cfg, site, s, checkpoint).Ok?
    ensures EnsurePage(cfg, site, s, checkpoint).value.captured == s.captured
  {
    hide Derive, Execute, ReplayKeys, Decode, Payload, Supported;
    if s.page.None? && checkpoint.Some? {
      RetraceKeeps(cfg, site, s.(page := Some(site.root)), Decode(cfg.codec, cfg.target, checkpoint.value).value.0);
    }
  }

  lemma PerformKeeps<S(!new)>(cfg: Config, site: Site<S>, s: Session<S>, checkpoint: string)
    requires s.page.Some? && Perform(cfg, site, s, checkpoint).Ok?
    ensures Perform(cfg, site, s, checkpoint).value.captured == s.captured
  {
    hide Execute, Decode, Payload;
    var pending := Decode(cfg.codec, cfg.target, checkpoint).value.1;
    Executed(cfg, site, s, pending);
  }

  /** Any call that returns a page has scanned it: the captured Posts are those of
      before and the first unknown ones on the page, up to the limit. */
  lemma {:induction false} CallRenders<S(!new)>(cfg: Config, site: Site<S>, s: Session<S>, checkpoint: Option<string>)
    requires Call(cfg, site, s, checkpoint).Ok?
    ensures var (s', r) := Call(cfg, site, s, checkpoint).value;
            && s'.page.Some?
            && var v := site.view(s'.page.value);
               && s'.captured == Admit(s.captured, PostIds(v.posts), cfg.known, cfg.maxRecent)
               && r.raw == cfg.render(v, Kept(v.posts, s'.captured))
  {
    hide EnsurePage, Perform, Render, Admit, PostIds, Kept, Derive, Encode;
    EnsureKeeps(cfg, site, s, checkpoint);
    var ready := EnsurePage(cfg, site, s, checkpoint).value;
    if checkpoint.Some? {
      PerformKeeps(cfg, site, ready, checkpoint.value);
      RenderNext(cfg, site, Perform(cfg, site, ready, checkpoint.value).value);
    } else {
      RenderNext(cfg, site, ready);
    }
  }

  /** Whatever the page does, over all pages of a session the identified Posts that
      stay are among at most `maxRecent` identifiers, none of them known; once a
      Post has stayed it stays on every later page that shows it. */
  lemma {:induction false} SessionPosts<S(!new)>(cfg: Config, site: Site<S>, j: nat, k: nat)
    requires j <= k && Runs(cfg, site, k).Ok?
    ensures Runs(cfg, site, j).Ok?
    ensures var s, s' := Runs(cfg, site, j).value.0, Runs(cfg, site, k).value.0;
            && s.page.Some? && s.captured <= s'.captured
            && |s'.captured| <= cfg.maxRecent && s'.captured !! cfg.known
            && Runs(cfg, site, j).value.1.raw
               == cfg.render(site.view(s.page.value), Kept(site.view(s.page.value).posts, s.captured))
    decreases k
  {
    hide Call, Admit, PostIds, Kept;
    var before := if k == 0 then Opening() else Runs(cfg, site, k - 1).value.0;
    var (s', r) := Runs(cfg, site, k).value;
    CallRenders(cfg, site, before, if k == 0 then None else Runs(cfg, site, k - 1).value.1.next);
    if k > 0 { SessionPosts(cfg, site, Min(j, k - 1), k - 1); }
    AdmitBounds(before.captured, PostIds(site.view(s'.page.value).posts), cfg.known, cfg.maxRecent);
  }

  /** On a page whose feed only grows they are exactly the first `maxRecent` unknown
      identifiers of the feed. */
  lemma {:induction false} SessionPostsFirst<S(!new)>(cfg: Config, site: Site<S>, k: nat, id: string)
    requires Inverse(cfg.codec) && AppendOnly(site) && Anchored(site) && cfg.maxRecent > 0
    requires Runs(cfg, site, k).Ok?
    ensures var s := Runs(cfg, site, k).value.0;
            s.page.Some?
            && var ids := PostIds(site.view(s.page.value).posts);
               id in s.captured
               <==> id in ids && id !in cfg.known && |UnknownBefore(ids, id, cfg.known)| < cfg.maxRecent
  {
    hide Runs, AppendOnly, Anchored, Retraceable, Derive, Admit, PostIds, UnknownBefore;
    SessionRests(cfg, site, k);
    var s := Runs(cfg, site, k).value.0;
    AdmitsTheFirst(PostIds(site.view(s.page.value).posts), cfg.known, cfg.maxRecent, id);
  }

  /** What a new browser shows for a cursor: the page source of a capture job. */
  function SourceOf<S>(cfg: Config, site: Site<S>, cursor: Option<string>): Capture.Fetch {
    match Call(cfg, site, Opening(), cursor)
    case Err(failure) => Capture.Stopped(failure)
    case Ok((_, r)) => Capture.Rendered(r.raw, r.next)
  }

  /** One session through all its calls, or a new browser a page: the page source
      is the same function of the cursor. */
  lemma {:induction false} SessionIsSource<S(!new)>(cfg: Config, site: Site<S>, k: nat)
    requires Inverse(cfg.codec) && AppendOnly(site) && Anchored(site) && cfg.maxRecent > 0
    requires Runs(cfg, site, k).Ok?
    ensures var r := Runs(cfg, site, k).value.1;
            SourceOf(cfg, site, if k == 0 then None else Runs(cfg, site, k - 1).value.1.next)
            == Capture.Rendered(r.raw, r.next)
  {
    hide Call, AppendOnly, Anchored, SameStand;
    if k > 0 { FreshOpensAlike(cfg, site, k); }
  }
}
