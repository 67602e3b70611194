/** A resume that knows more Posts than the session did: the command line reads the
    known Posts afresh from the tables, which by then hold the session's own. */
module KnownPosts {
  import opened Basics
  import opened Checkpoints
  import opened Strings
  import opened Browser
  import opened BrowserResume

  /** The same configuration with more known Posts. */
  ghost predicate KnowsMore(cfg: Config, more: Config) {
    more == cfg.(known := more.known) && cfg.known <= more.known
  }

  /** A key tells which element it stands for: no mark's value looks like a caption
      key, and captions have different tags. */
  ghost predicate KeysTell<S(!new)>(cfg: Config, site: Site<S>) {
    && (forall s, m | m in site.view(s).postMarks || m in site.view(s).commentMarks :: !("text:" <= m.value))
    && (forall c, c' | cfg.captionTag(c) == cfg.captionTag(c') :: c == c')
  }

  predicate Known(known: set<string>, b: Button) {
    b.post.Some? && b.post.value in known
  }

  /** The first button that may be pressed and whose Post is not known has this kind
      and caption. */
  ghost predicate StillFirst(
    cfg: Config, permitted: set<string>, known: set<string>, buttons: seq<Button>, kind: string, caption: string)
  {
    exists i | 0 <= i < |buttons| ::
      && ButtonKind(cfg, permitted, buttons[i]) == Some(kind) && buttons[i].caption == caption
      && !Known(known, buttons[i])
      && forall j | 0 <= j < i :: ButtonKind(cfg, permitted, buttons[j]).None? || Known(known, buttons[j])
  }

  /** What the session expands next on this page is still to be expanded when these
      Posts are known: its mark is not one of theirs, or a button of the same
      caption comes first among the others'. A scroll always survives. */
  ghost predicate Survives(cfg: Config, v: View, known: set<string>) {
    var permitted := Permitted(cfg, v);
    match FirstMark(cfg, permitted, v.postMarks)
    case Some(value) => value !in known
    case None =>
      match FirstMark(cfg, permitted, v.commentMarks)
      case Some(value) => value !in known
      case None =>
        match FirstButton(cfg, permitted, v.buttons)
        case Some(a) => StillFirst(cfg, permitted, known, v.buttons, a.kind, a.text.value)
        case None => true
  }

  // ------------------------------------------------------- the next action

  lemma {:induction false} MarksKnown(cfg: Config, more: Config, permitted: set<string>, marks: seq<Marked>)
    requires KnowsMore(cfg, more)
    ensures FirstMark(cfg, permitted, marks).None? ==> FirstMark(more, permitted, marks).None?
    ensures FirstMark(cfg, permitted, marks).Some? ==>
              (FirstMark(more, permitted, marks) == FirstMark(cfg, permitted, marks)
               <==> FirstMark(cfg, permitted, marks).value !in more.known)
    ensures FirstMark(more, permitted, marks).Some? ==> FirstMark(more, permitted, marks).value !in more.known
  {
    if marks != [] { MarksKnown(cfg, more, permitted, marks[1..]); }
  }

  lemma ButtonKnown(cfg: Config, more: Config, permitted: set<string>, b: Button)
    requires KnowsMore(cfg, more)
    ensures ButtonKind(more, permitted, b) == if Known(more.known, b) then None else ButtonKind(cfg, permitted, b)
  {
  }

  lemma {:induction false} ButtonsKnown(cfg: Config, more: Config, permitted: set<string>, buttons: seq<Button>)
    requires KnowsMore(cfg, more)
    ensures FirstButton(more, permitted, buttons).Some? ==> FirstButton(cfg, permitted, buttons).Some?
    ensures FirstButton(more, permitted, buttons).Some? ==>
              var a := FirstButton(more, permitted, buttons).value;
              && a.selector.None? && a.text.Some?
              && a.key == a.kind + ":text:" + cfg.captionTag(a.text.value)
              && (a.kind == "expand_post" || a.kind == "expand_comments")
    ensures forall kind, caption ::
              StillFirst(cfg, permitted, more.known, buttons, kind, caption)
              <==> FirstButton(more, permitted, buttons).Some?
                   && FirstButton(more, permitted, buttons).value.kind == kind
                   && FirstButton(more, permitted, buttons).value.text == Some(caption)
  {
    hide ButtonKind;
    if buttons == [] { return; }
    var rest := buttons[1..];
    ButtonsKnown(cfg, more, permitted, rest);
    ButtonKnown(cfg, more, permitted, buttons[0]);
    ButtonKindIs(cfg, permitted, buttons[0]);
    forall kind, caption
      ensures StillFirst(cfg, permitted, more.known, buttons, kind, caption)
              <==> FirstButton(more, permitted, buttons).Some?
                   && FirstButton(more, permitted, buttons).value.kind == kind
                   && FirstButton(more, permitted, buttons).value.text == Some(caption)
    {
      StillFirstStep(cfg, permitted, more.known, buttons, kind, caption);
    }
  }

  lemma ButtonKindIs(cfg: Config, permitted: set<string>, b: Button)
    ensures ButtonKind(cfg, permitted, b) in {None, Some("expand_post"), Some("expand_comments")}
  {
  }

  lemma StillFirstStep(
    cfg: Config, permitted: set<string>, known: set<string>, buttons: seq<Button>, kind: string, caption: string)
    requires buttons != []
    ensures StillFirst(cfg, permitted, known, buttons, kind, caption)
            <==> if ButtonKind(cfg, permitted, buttons[0]).None? || Known(known, buttons[0])
                 then StillFirst(cfg, permitted, known, buttons[1..], kind, caption)
                 else ButtonKind(cfg, permitted, buttons[0]) == Some(kind) && buttons[0].caption == caption
  {
    hide ButtonKind;
    var rest := buttons[1..];
    var gone := ButtonKind(cfg, permitted, buttons[0]).None? || Known(known, buttons[0]);
    if gone && StillFirst(cfg, permitted, known, buttons, kind, caption) {
      var i :| 0 <= i < |buttons| && ButtonKind(cfg, permitted, buttons[i]) == Some(kind)
        && buttons[i].caption == caption && !Known(known, buttons[i])
        && forall j | 0 <= j < i :: ButtonKind(cfg, permitted, buttons[j]).None? || Known(known, buttons[j]);
      assert rest[i - 1] == buttons[i];
      forall j | 0 <= j < i - 1 ensures ButtonKind(cfg, permitted, rest[j]).None? || Known(known, rest[j]) {
        assert rest[j] == buttons[j + 1];
      }
    }
    if gone && StillFirst(cfg, permitted, known, rest, kind, caption) {
      var i :| 0 <= i < |rest| && ButtonKind(cfg, permitted, rest[i]) == Some(kind)
        && rest[i].caption == caption && !Known(known, rest[i])
        && forall j | 0 <= j < i :: ButtonKind(cfg, permitted, rest[j]).None? || Known(known, rest[j]);
      assert buttons[i + 1] == rest[i];
      forall j | 0 <= j < i + 1 ensures ButtonKind(cfg, permitted, buttons[j]).None? || Known(known, buttons[j]) {
        if j > 0 { assert rest[j - 1] == buttons[j]; }
      }
    }
    if !gone && ButtonKind(cfg, permitted, buttons[0]) == Some(kind) && buttons[0].caption == caption {
      assert StillFirst(cfg, permitted, known, buttons, kind, caption);
    }
  }

  predicate IsKind(kind: string) {
    kind == "expand_post" || kind == "expand_comments" || kind == "scroll"
  }

  /** A key tells the kind of its action and what follows. */
  lemma KindOfKey(kind: string, rest: string, kind': string, rest': string)
    requires IsKind(kind) && IsKind(kind') && kind + ":" + rest == kind' + ":" + rest'
    ensures kind == kind' && rest == rest'
  {
    var key, key' := kind + ":" + rest, kind' + ":" + rest';
    assert key[0] == kind[0] && key'[0] == kind'[0];
    assert kind != "scroll" ==> key[7] == kind[7];
    assert kind' != "scroll" ==> key'[7] == kind'[7];
    assert "expand_post"[0] == 'e' && "expand_comments"[0] == 'e' && "scroll"[0] == 's';
    assert "expand_post"[7] == 'p' && "expand_comments"[7] == 'c';
    assert rest == key[|kind| + 1..] && rest' == key'[|kind'| + 1..];
  }

  function AttributeOf(kind: string): string {
    if kind == "expand_post" then "data-pgscan-expand-post" else "data-pgscan-expand-comments"
  }

  /** What follows the kind in the key of a derived action. */
  ghost predicate Shape(cfg: Config, v: View, completed: seq<string>, a: Action, rest: string) {
    && IsKind(a.kind) && a.key == a.kind + ":" + rest
    && (a.kind == "scroll" ==> a.selector.None? && a.text.None? && rest == Decimal(Scrolls(completed) + 1))
    && (a.kind != "scroll" && a.selector.Some? ==>
          && a == MarkAction(cfg, a.kind, AttributeOf(a.kind), rest)
          && exists m :: (m in v.postMarks || m in v.commentMarks) && m.value == rest)
    && (a.kind != "scroll" && a.selector.None? ==> a.text.Some? && rest == "text:" + cfg.captionTag(a.text.value))
  }

  lemma DerivedShape(cfg: Config, v: View, completed: seq<string>, captured: set<string>) returns (rest: string)
    requires Derive(cfg, v, completed, captured).Some?
    ensures Shape(cfg, v, completed, Derive(cfg, v, completed, captured).value, rest)
  {
    hide FirstMark, FirstButton, Permitted, BoundaryReached;
    var permitted := Permitted(cfg, v);
    var a := Derive(cfg, v, completed, captured).value;
    MarkFound(cfg, permitted, v.postMarks);
    MarkFound(cfg, permitted, v.commentMarks);
    ButtonShape(cfg, permitted, v.buttons);
    assert AttributeOf("expand_comments") == "data-pgscan-expand-comments" by {
      assert "expand_comments"[7] != "expand_post"[7];
    }
    if FirstMark(cfg, permitted, v.postMarks).Some? {
      rest := FirstMark(cfg, permitted, v.postMarks).value;
    } else if FirstMark(cfg, permitted, v.commentMarks).Some? {
      rest := FirstMark(cfg, permitted, v.commentMarks).value;
    } else if FirstButton(cfg, permitted, v.buttons).Some? {
      rest := "text:" + cfg.captionTag(a.text.value);
      assert a.kind + ":text:" + cfg.captionTag(a.text.value) == a.kind + ":" + rest;
    } else {
      rest := Decimal(Scrolls(completed) + 1);
      assert "scroll:" + rest == "scroll" + ":" + rest;
    }
    assert "scroll"[0] != "expand_post"[0] && "scroll"[0] != "expand_comments"[0];
  }

  lemma {:induction false} ButtonShape(cfg: Config, permitted: set<string>, buttons: seq<Button>)
    ensures FirstButton(cfg, permitted, buttons).Some? ==>
              var a := FirstButton(cfg, permitted, buttons).value;
              && a.selector.None? && a.text.Some?
              && a.key == a.kind + ":text:" + cfg.captionTag(a.text.value)
              && (a.kind == "expand_post" || a.kind == "expand_comments")
  {
    if buttons != [] { ButtonShape(cfg, permitted, buttons[1..]); }
  }

  /** Two actions derived from one page with the same key are the same action. */
  lemma {:induction false} KeysDecide<S(!new)>(
    cfg: Config, more: Config, site: Site<S>, page: S, completed: seq<string>, captured: set<string>)
    requires KnowsMore(cfg, more) && KeysTell(cfg, site)
    requires Derive(cfg, site.view(page), completed, captured).Some?
    requires Derive(more, site.view(page), completed, captured).Some?
    requires Derive(cfg, site.view(page), completed, captured).value.key
             == Derive(more, site.view(page), completed, captured).value.key
    ensures Derive(cfg, site.view(page), completed, captured) == Derive(more, site.view(page), completed, captured)
  {
    hide Derive, IsKind;
    var v := site.view(page);
    var a, b := Derive(cfg, v, completed, captured).value, Derive(more, v, completed, captured).value;
    var rest := DerivedShape(cfg, v, completed, captured);
    var rest' := DerivedShape(more, v, completed, captured);
    KindOfKey(a.kind, rest, b.kind, rest');
    if a.kind != "scroll" && a.selector.None? && b.selector.None? {
      assert rest[5..] == cfg.captionTag(a.text.value) && rest'[5..] == cfg.captionTag(b.text.value);
    }
  }

  lemma SameBounds(cfg: Config, more: Config, v: View, captured: set<string>)
    requires KnowsMore(cfg, more)
    ensures Permitted(more, v) == Permitted(cfg, v)
    ensures BoundaryReached(more, v, captured) == BoundaryReached(cfg, v, captured)
  {
  }

  /** Knowing more leaves the next action as it was exactly when it survives. */
  lemma {:induction false} DeriveKnowingMore(
    cfg: Config, more: Config, v: View, completed: seq<string>, captured: set<string>)
    requires KnowsMore(cfg, more)
    ensures Derive(more, v, completed, captured) == Derive(cfg, v, completed, captured)
            <==> Survives(cfg, v, more.known)
  {
    hide FirstMark, FirstButton, StillFirst, Permitted, BoundaryReached;
    var permitted := Permitted(cfg, v);
    SameBounds(cfg, more, v, captured);
    MarksKnown(cfg, more, permitted, v.postMarks);
    MarksKnown(cfg, more, permitted, v.commentMarks);
    ButtonsKnown(cfg, more, permitted, v.buttons);
    ButtonShape(cfg, permitted, v.buttons);
    var first, first' := FirstMark(cfg, permitted, v.postMarks), FirstMark(more, permitted, v.postMarks);
    var second, second' := FirstMark(cfg, permitted, v.commentMarks), FirstMark(more, permitted, v.commentMarks);
    assert "expand_comments"[7] != "expand_post"[7] && "scroll"[0] != "expand_post"[0];
    assert "scroll"[0] != "expand_comments"[0];
    if first.Some? && first'.Some? {
      MarkKeys(cfg, "expand_post", "data-pgscan-expand-post", first.value, first'.value);
    } else if first.None? && second.Some? && second'.Some? {
      MarkKeys(cfg, "expand_comments", "data-pgscan-expand-comments", second.value, second'.value);
    }
  }

  lemma MarkKeys(cfg: Config, kind: string, attribute: string, a: string, b: string)
    ensures MarkAction(cfg, kind, attribute, a) == MarkAction(cfg, kind, attribute, b) <==> a == b
  {
    var x, y := MarkAction(cfg, kind, attribute, a).key, MarkAction(cfg, kind, attribute, b).key;
    assert x[|kind| + 1..] == a && y[|kind| + 1..] == b;
  }

  // ----------------------------------------------------------- the retrace

  lemma ExecuteKnowingMore<S(!new)>(cfg: Config, more: Config, site: Site<S>, s: Session<S>, a: Action)
    requires KnowsMore(cfg, more) && s.page.Some?
    ensures Execute(more, site, s, a) == Execute(cfg, site, s, a)
  {
  }

  /** Every action that leads to the page after these keys survives. */
  ghost predicate AllSurvive<S(!new)>(cfg: Config, site: Site<S>, known: set<string>, keys: seq<string>) {
    forall i | 0 <= i < |keys| ::
      var there := ReplayKeys(cfg, site, AtRoot(site), keys[..i]);
      there.Ok? && Survives(cfg, site.view(there.value.page.value), known)
  }

  lemma AllSurviveStep<S(!new)>(cfg: Config, site: Site<S>, known: set<string>, keys: seq<string>)
    requires keys != []
    ensures var front := keys[..|keys| - 1];
            var there := ReplayKeys(cfg, site, AtRoot(site), front);
            AllSurvive(cfg, site, known, keys)
            <==> AllSurvive(cfg, site, known, front) && there.Ok?
                 && Survives(cfg, site.view(there.value.page.value), known)
  {
    hide ReplayKeys, Survives;
    var front := keys[..|keys| - 1];
    forall i | 0 <= i < |front| ensures front[..i] == keys[..i] {
    }
    if AllSurvive(cfg, site, known, keys) {
      assert keys[..|keys| - 1] == front;
      forall i | 0 <= i < |front|
        ensures var there := ReplayKeys(cfg, site, AtRoot(site), front[..i]);
                there.Ok? && Survives(cfg, site.view(there.value.page.value), known)
      {
        assert front[..i] == keys[..i];
      }
    }
    if AllSurvive(cfg, site, known, front) && ReplayKeys(cfg, site, AtRoot(site), front).Ok?
      && Survives(cfg, site.view(ReplayKeys(cfg, site, AtRoot(site), front).value.page.value), known)
    {
      forall i | 0 <= i < |keys|
        ensures var there := ReplayKeys(cfg, site, AtRoot(site), keys[..i]);
                there.Ok? && Survives(cfg, site.view(there.value.page.value), known)
      {
        if i < |front| { assert front[..i] == keys[..i]; } else { assert keys[..i] == front; }
      }
    }
  }

  /** Knowing more, the history is retraced as before or refused, exactly by
      whether all its actions survive. */
  lemma {:induction false} RetraceKnowingMore<S(!new)>(
    cfg: Config, more: Config, site: Site<S>, keys: seq<string>)
    requires KnowsMore(cfg, more) && KeysTell(cfg, site)
    requires ReplayKeys(cfg, site, AtRoot(site), keys).Ok?
    ensures ReplayKeys(more, site, AtRoot(site), keys)
            == if AllSurvive(cfg, site, more.known, keys) then ReplayKeys(cfg, site, AtRoot(site), keys)
               else Err("checkpoint_invalid")
  {
    hide Derive, Execute, Survives, AllSurvive, KnowsMore, KeysTell;
    if keys == [] {
      NothingSurvives(cfg, site, more.known);
    } else {
      var front := keys[..|keys| - 1];
      var there := ReplayKeys(cfg, site, AtRoot(site), front).value;
      var page := there.page.value;
      RetraceKnowingMore(cfg, more, site, front);
      AllSurviveStep(cfg, site, more.known, keys);
      DeriveKnowingMore(cfg, more, site.view(page), there.completed, there.captured);
      var a := Derive(cfg, site.view(page), there.completed, there.captured).value;
      ExecuteKnowingMore(cfg, more, site, there, a);
      var b := Derive(more, site.view(page), there.completed, there.captured);
      if b.Some? && b.value.key == a.key { KeysDecide(cfg, more, site, page, there.completed, there.captured); }
    }
  }

  lemma NothingSurvives<S(!new)>(cfg: Config, site: Site<S>, known: set<string>)
    ensures AllSurvive(cfg, site, known, [])
  {
  }

  // ------------------------------------------------------------ the resume

  /** Earlier histories are the beginnings of later ones. */
  lemma {:induction false} HistoryGrows<S(!new)>(cfg: Config, site: Site<S>, i: nat, k: nat)
    requires i <= k && Runs(cfg, site, k).Ok?
    ensures Runs(cfg, site, i).Ok? && |Runs(cfg, site, k).value.0.completed| == k
    ensures Runs(cfg, site, i).value.0.completed == Runs(cfg, site, k).value.0.completed[..i]
    decreases k
  {
    hide Call;
    HistoryCounts(cfg, site, k);
    if i < k {
      HistoryGrows(cfg, site, i, k - 1);
      var (s, r) := Runs(cfg, site, k - 1).value;
      HistoryCounts(cfg, site, k - 1);
      CallExtends(cfg, site, s, r.next.value);
      var longer := Runs(cfg, site, k).value.0.completed;
      assert longer[..i] == longer[..k - 1][..i];
    }
  }

  lemma CallExtends<S(!new)>(cfg: Config, site: Site<S>, s: Session<S>, checkpoint: string)
    requires s.page.Some? && Call(cfg, site, s, Some(checkpoint)).Ok?
    ensures var longer := Call(cfg, site, s, Some(checkpoint)).value.0.completed;
            |longer| == |s.completed| + 1 && longer[..|s.completed|] == s.completed
  {
    hide Render, Execute, Decode, Payload;
    var pending := Decode(cfg.codec, cfg.target, checkpoint).value.1;
    Executed(cfg, site, s, pending);
    RenderNext(cfg, site, Execute(cfg, site, s, pending).value.(pending := None));
  }

  /** The page after call `i` of a session. */
  function PageAt<S>(cfg: Config, site: Site<S>, i: nat): Option<S> {
    match Runs(cfg, site, i) case Ok((s, _)) => s.page case Err(_) => None
  }

  ghost predicate SurvivesAt<S(!new)>(cfg: Config, site: Site<S>, known: set<string>, i: nat) {
    PageAt(cfg, site, i).Some? && Survives(cfg, site.view(PageAt(cfg, site, i).value), known)
  }

  /** The pages a resume goes through again are those of the session. */
  lemma RetracedPages<S(!new)>(cfg: Config, site: Site<S>, known: set<string>, k: nat)
    requires Inverse(cfg.codec) && AppendOnly(site) && Anchored(site) && cfg.maxRecent > 0
    requires Runs(cfg, site, k).Ok?
    ensures AllSurvive(cfg, site, known, Runs(cfg, site, k).value.0.completed)
            <==> forall i: nat | i < k :: SurvivesAt(cfg, site, known, i)
  {
    hide Survives, AppendOnly, Anchored, Runs, ReplayKeys, Derive, Admit;
    var keys := Runs(cfg, site, k).value.0.completed;
    HistoryGrows(cfg, site, k, k);
    forall i | 0 <= i < k
      ensures var there := ReplayKeys(cfg, site, AtRoot(site), keys[..i]);
              there.Ok? && Some(there.value.page.value) == PageAt(cfg, site, i)
    {
      HistoryGrows(cfg, site, i, k);
      SessionRests(cfg, site, i);
    }
    if forall i: nat | i < k :: SurvivesAt(cfg, site, known, i) {
      forall i | 0 <= i < |keys|
        ensures var there := ReplayKeys(cfg, site, AtRoot(site), keys[..i]);
                there.Ok? && Survives(cfg, site.view(there.value.page.value), known)
      {
        assert SurvivesAt(cfg, site, known, i);
      }
    }
  }

  /** Onward from a stand that has rendered nothing yet: the page comes back unless
      it is too large. */
  lemma OnwardKnowingMore<S(!new)>(
    cfg: Config, more: Config, site: Site<S>, f: Session<S>, s: Session<S>, a: Action)
    requires KnowsMore(cfg, more) && s.page.Some? && Onward(cfg, site, s, a).Ok?
    requires f.page == s.page && f.interactions == s.interactions && f.completed == s.completed && f.empties == 0
    ensures Onward(more, site, f, a).Ok? || Onward(more, site, f, a) == Err("storage_limit")
    ensures Onward(more, site, f, a).Ok? ==>
              var g, t := Onward(more, site, f, a).value.0, Onward(cfg, site, s, a).value.0;
              g.page == t.page && g.completed == t.completed && g.interactions == t.interactions
  {
    hide Execute, Render;
    ExecuteKnowingMore(cfg, more, site, f, a);
    ExecutedAlike(cfg, site, f, s, a);
    Executed(cfg, site, s, a);
    var done := Execute(cfg, site, s, a).value.(pending := None);
    var done' := Execute(more, site, f, a).value.(pending := None);
    RenderNext(cfg, site, done);
    FirstRender(more, site, done');
    if Render(more, site, done').Ok? { RenderNext(more, site, done'); }
  }

  lemma FirstRender<S(!new)>(cfg: Config, site: Site<S>, s: Session<S>)
    requires s.page.Some? && Supported(site.view(s.page.value)).None? && s.empties == 0
    ensures Render(cfg, site, s).Ok? || Render(cfg, site, s) == Err("storage_limit")
  {
    hide Admit, PostIds, Kept, Derive, Encode;
  }

  /** A fresh browser that knows more refuses the checkpoint exactly when some action
      up to the next one no longer survives; otherwise it comes to the page the
      session came to. */
  lemma {:induction false} ResumeKnowingMore<S(!new)>(cfg: Config, more: Config, site: Site<S>, k: nat)
    requires Inverse(cfg.codec) && AppendOnly(site) && Anchored(site) && cfg.maxRecent > 0
    requires KnowsMore(cfg, more) && KeysTell(cfg, site)
    requires k > 0 && Runs(cfg, site, k).Ok?
    ensures var c := Runs(cfg, site, k - 1).value.1.next;
            var resumed := Call(more, site, Opening(), c);
            && c.Some?
            && (resumed == Err("checkpoint_invalid")
                <==> exists i: nat :: i < k && !SurvivesAt(cfg, site, more.known, i))
            && (resumed.Ok? || resumed.error in {"checkpoint_invalid", "storage_limit"})
            && (resumed.Ok? ==>
                  var s := Runs(cfg, site, k).value.0;
                  resumed.value.0.page == s.page && resumed.value.0.completed == s.completed)
  {
    hide Render, Admit, PostIds, Derive, Execute, AppendOnly, Anchored, Encode, Decode, ReplayKeys, Call, Payload,
         Survives, AllSurvive, KeysTell, Supported, Onward;
    var (s, r) := Runs(cfg, site, k - 1).value;
    SessionRests(cfg, site, k - 1);
    RetracedPages(cfg, site, more.known, k - 1);
    var page := s.page.value;
    NextCall(cfg, site, s, k - 1);
    CheckpointRoundTrip(cfg.codec, cfg.target, cfg.target, s.completed, s.pending.value);
    CapturedAnchored(cfg, site, page);
    DeriveIgnoresCaptured(cfg, site.view(page), s.completed, s.captured);
    RetraceKnowingMore(cfg, more, site, s.completed);
    DeriveKnowingMore(cfg, more, site.view(page), s.completed, {});
    var back := AtRoot(site).(page := s.page, interactions := s.interactions, completed := s.completed);
    var there := back.(pending := s.pending);
    var all := forall i: nat | i < k :: SurvivesAt(cfg, site, more.known, i);
    assert all <==> (forall i: nat | i < k - 1 :: SurvivesAt(cfg, site, more.known, i))
                    && SurvivesAt(cfg, site, more.known, k - 1);
    assert SurvivesAt(cfg, site, more.known, k - 1) <==> Survives(cfg, site.view(page), more.known);
    if all {
      FreshCall(more, site, r.next.value, s.completed, s.pending.value, there);
      OnwardKnowingMore(cfg, more, site, there, s, s.pending.value);
    } else {
      RefusedCall(more, site, r.next.value, s.completed, s.pending.value, back);
    }
  }

  /** A call on a new browser whose retrace fails or ends before another action. */
  lemma RefusedCall<S(!new)>(
    cfg: Config, site: Site<S>, checkpoint: string, completed: seq<string>, pending: Action, back: Session<S>)
    requires Decode(cfg.codec, cfg.target, checkpoint) == Ok((completed, pending)) && cfg.maxPages > 0
    requires Supported(site.view(site.root)).None? && back.page.Some? && back.completed == completed
    requires
      || ReplayKeys(cfg, site, AtRoot(site), completed) == Err("checkpoint_invalid")
      || (ReplayKeys(cfg, site, AtRoot(site), completed) == Ok(back)
          && Derive(cfg, site.view(back.page.value), completed, back.captured) != Some(pending))
    ensures Call(cfg, site, Opening(), Some(checkpoint)) == Err("checkpoint_invalid")
  {
    hide Render, Derive, Execute, Decode, ReplayKeys, Payload, Supported;
    var derived := Derive(cfg, site.view(back.page.value), completed, back.captured);
    if derived.Some? {
      PayloadRoundTrip(derived.value);
      PayloadRoundTrip(pending);
    }
  }

  // ------------------------------------------------------------ an example

  /** A page with one Post, which can be expanded once. */
  function OnePost(codec: Codec): (Config, Site<bool>) {
    var cfg := Config(9, 9, 9, 2, 9, None, {}, "target", codec, t => t, c => c, _ => false, _ => false, _ => false,
                      (_, _) => []);
    var view := (expanded: bool) =>
      View([Post(Some("p"), "")], [Some("p")], if expanded then [] else [Marked("p", true)], [], [], false, [], None,
           true, true);
    var act := (expanded: bool, a: Action) => Some(true);
    (cfg, Site(false, act, view))
  }

  lemma OnePostFits(codec: Codec)
    ensures var (cfg, site) := OnePost(codec);
            AppendOnly(site) && Anchored(site) && KeysTell(cfg, site) && cfg.maxRecent > 0
    ensures var (cfg, site) := OnePost(codec);
            forall s: bool ::
              && PostIds(site.view(s).posts) == ["p"] && AnchorIds(site.view(s)) == {"p"}
              && Permitted(cfg, site.view(s)) == {"p"} && Supported(site.view(s)).None?
  {
    hide PostIds, AnchorIds, Permitted;
    var (cfg, site) := OnePost(codec);
    forall s: bool
      ensures PostIds(site.view(s).posts) == ["p"] && AnchorIds(site.view(s)) == {"p"}
      ensures Permitted(cfg, site.view(s)) == {"p"} && Supported(site.view(s)).None?
    {
      OnePostShown(cfg, site.view(s), "p");
    }
    assert "p"[0] != "text:"[0];
  }

  lemma OnePostShown(cfg: Config, v: View, id: string)
    requires v.posts == [Post(Some(id), "")] && v.anchors == [Some(id)] && cfg.maxRecent > 0
    ensures PostIds(v.posts) == [id] && AnchorIds(v) == {id} && Permitted(cfg, v) == {id}
  {
    hide Present, Admit;
    PresentOne(id);
    assert IdsOf(v.posts) == [Some(id)];
    AdmitOne(id, {}, cfg.maxRecent);
    assert Some(id) in v.anchors;
    forall x ensures x in AnchorIds(v) <==> x == id {
      if x in AnchorIds(v) {
        var a :| a in v.anchors && a.Some? && a.value == x;
      }
    }
  }

  lemma PresentOne(id: string)
    ensures Present([Some(id)]) == [id]
  {
    assert [Some(id)][..0] == [];
  }

  lemma AdmitOne(id: string, known: set<string>, max: nat)
    requires max > 0 && id !in known
    ensures Admit({}, [id], known, max) == {id}
  {
    assert [id][..0] == [];
    assert {} + {id} == {id};
  }

  lemma OnePostRuns(codec: Codec)
    requires Inverse(codec)
    ensures var (cfg, site) := OnePost(codec);
            && Runs(cfg, site, 0).Ok? && Runs(cfg, site, 0).value.0.captured == {"p"}
            && PageAt(cfg, site, 0) == Some(false) && Runs(cfg, site, 1).Ok?
  {
    hide Encode, Decode, Payload, PostIds, Permitted, AnchorIds, Kept, AppendOnly, Anchored, KeysTell, Retraceable,
         Scrolls;
    var (cfg, site) := OnePost(codec);
    OnePostFits(codec);
    AdmitOne("p", {}, 2);
    assert Runs(cfg, site, 0) == Call(cfg, site, Opening(), None);
    assert Call(cfg, site, Opening(), None) == Render(cfg, site, AtRoot(site));
    var (s, r) := Runs(cfg, site, 0).value;
    SessionRests(cfg, site, 0);
    NextCall(cfg, site, s, 0);
    assert Runs(cfg, site, 1) == Call(cfg, site, s, r.next);
    Executed(cfg, site, s, s.pending.value);
  }

  /** A session keeps a Post and expands it; the resume, which by then knows it,
      refuses the checkpoint. */
  lemma {:induction false} OwnPostsRefuse(codec: Codec)
    requires Inverse(codec)
    ensures var (cfg, site) := OnePost(codec);
            && AppendOnly(site) && Anchored(site) && KeysTell(cfg, site) && cfg.maxRecent > 0
            && Runs(cfg, site, 1).Ok?
            && Runs(cfg, site, 0).value.0.captured == {"p"}
            && Call(cfg.(known := {"p"}), site, Opening(), Runs(cfg, site, 0).value.1.next) == Err("checkpoint_invalid")
  {
    hide Runs, Call, AppendOnly, Anchored, KeysTell, Permitted;
    var (cfg, site) := OnePost(codec);
    OnePostFits(codec);
    OnePostRuns(codec);
    var more := cfg.(known := {"p"});
    ResumeKnowingMore(cfg, more, site, 1);
    assert !SurvivesAt(cfg, site, {"p"}, 0);
  }
}
