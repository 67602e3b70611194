/** What a browser session does next, told by the fields of what it sees. */
module NextActions {
  import opened Basics
  import opened Checkpoints
  import opened Strings
  import opened Browser
  import opened BrowserResume

  // ------------------------------------------------- what may be expanded

  /** The identifiers shown before the first place of `id`. */
  function EarlierIds(anchors: seq<Option<string>>, id: string): set<string> {
    set k | 0 <= k < |anchors| && anchors[k].Some? && (forall j | 0 <= j <= k :: anchors[j] != Some(id))
      :: anchors[k].value
  }

  /** The Post is not known, and among the first `maxRecent` on the page; when none
      is named there, the limit does not apply. */
  ghost predicate Allowed(cfg: Config, anchors: seq<Option<string>>, id: string) {
    && id !in cfg.known
    && (cfg.maxRecent == 0 || (forall a | a in anchors :: a == None)
        || (Some(id) in anchors && |EarlierIds(anchors, id)| < cfg.maxRecent))
  }

  ghost predicate MarkOpen(cfg: Config, v: View, m: Marked) {
    m.visible && Allowed(cfg, v.anchors, m.value)
  }

  ghost predicate ButtonOpen(cfg: Config, v: View, b: Button) {
    && b.visible && b.caption != "" && !cfg.isReply(b.caption)
    && (b.post == None || Allowed(cfg, v.anchors, b.post.value))
    && (cfg.expandsPost(b.caption) || cfg.expandsComments(b.caption))
  }

  lemma {:induction false} PresentFirst(a: Option<string>, rest: seq<Option<string>>)
    ensures Present([a] + rest) == (if a.Some? then [a.value] else []) + Present(rest)
    decreases |rest|
  {
    if rest == [] {
      assert [a] + rest == [a] && [a][..0] == [];
    } else {
      assert ([a] + rest)[..|rest|] == [a] + rest[..|rest| - 1];
      PresentFirst(a, rest[..|rest| - 1]);
    }
  }

  lemma {:induction false} EarlierAre(anchors: seq<Option<string>>, id: string)
    ensures id in Present(anchors) <==> Some(id) in anchors
    ensures UnknownBefore(Present(anchors), id, {}) == EarlierIds(anchors, id)
  {
    if anchors == [] {
    } else {
      var a, rest := anchors[0], anchors[1..];
      assert anchors == [a] + rest;
      PresentFirst(a, rest);
      EarlierAre(rest, id);
      var here, later := EarlierIds(anchors, id), EarlierIds(rest, id);
      if a == Some(id) {
        assert here == {};
      } else {
        EarlierMore(a, rest, id);
        assert [] + Present(rest) == Present(rest);
        if a.Some? {
          assert Present(anchors)[0] == a.value && Present(anchors)[1..] == Present(rest);
        }
      }
    }
  }

  lemma EarlierMore(a: Option<string>, rest: seq<Option<string>>, id: string)
    requires a != Some(id)
    ensures EarlierIds([a] + rest, id) == EarlierIds(rest, id) + if a.Some? then {a.value} else {}
  {
    var anchors := [a] + rest;
    forall x | x in EarlierIds(rest, id) ensures x in EarlierIds(anchors, id) {
      var k :| 0 <= k < |rest| && rest[k] == Some(x) && forall j | 0 <= j <= k :: rest[j] != Some(id);
      assert anchors[k + 1] == Some(x);
      forall j | 0 <= j <= k + 1 ensures anchors[j] != Some(id) {
        if j > 0 { assert anchors[j] == rest[j - 1]; }
      }
    }
    forall x | x in EarlierIds(anchors, id) ensures x in EarlierIds(rest, id) || a == Some(x) {
      var k :| 0 <= k < |anchors| && anchors[k] == Some(x) && forall j | 0 <= j <= k :: anchors[j] != Some(id);
      if k > 0 {
        assert rest[k - 1] == Some(x);
        forall j | 0 <= j <= k - 1 ensures rest[j] != Some(id) {
          assert anchors[j + 1] == rest[j];
        }
      }
    }
    if a.Some? {
      assert anchors[0] == a;
      assert a.value in EarlierIds(anchors, id);
    }
  }

  /** The session's own test of a Post, spelled out. */
  lemma {:induction false} AllowedPasses(cfg: Config, v: View, id: string)
    ensures Passes(cfg, Permitted(cfg, v), id) <==> Allowed(cfg, v.anchors, id)
  {
    hide Present, Admit, EarlierIds, UnknownBefore;
    var permitted := Permitted(cfg, v);
    var ids := Present(v.anchors);
    AdmitsTheFirst(ids, {}, cfg.maxRecent, id);
    EarlierAre(v.anchors, id);
    if permitted == {} {
      if cfg.maxRecent > 0 {
        forall a | a in v.anchors ensures a == None {
          if a.Some? { FirstAdmitted(cfg, v, a.value); }
        }
      }
    } else {
      var x :| x in permitted;
      AdmitsTheFirst(ids, {}, cfg.maxRecent, x);
      EarlierAre(v.anchors, x);
    }
  }

  lemma FirstAdmitted(cfg: Config, v: View, x: string)
    requires cfg.maxRecent > 0 && Some(x) in v.anchors
    ensures Permitted(cfg, v) != {}
  {
    var ids := Present(v.anchors);
    EarlierAre(v.anchors, x);
    assert x in ids;
    AdmitsTheFirst(ids, {}, cfg.maxRecent, ids[0]);
    assert UnknownBefore(ids, ids[0], {}) == {};
  }

  // ----------------------------------------------------- the next action

  lemma {:induction false} FirstMarkIs(cfg: Config, permitted: set<string>, marks: seq<Marked>, i: nat)
    requires i < |marks| && marks[i].visible && Passes(cfg, permitted, marks[i].value)
    requires forall j | 0 <= j < i :: !(marks[j].visible && Passes(cfg, permitted, marks[j].value))
    ensures FirstMark(cfg, permitted, marks) == Some(marks[i].value)
  {
    if i > 0 {
      assert forall j | 0 <= j < i - 1 :: marks[1..][j] == marks[j + 1];
      FirstMarkIs(cfg, permitted, marks[1..], i - 1);
    }
  }

  lemma {:induction false} FirstButtonIs(cfg: Config, permitted: set<string>, buttons: seq<Button>, i: nat)
    requires i < |buttons| && ButtonKind(cfg, permitted, buttons[i]).Some?
    requires forall j | 0 <= j < i :: ButtonKind(cfg, permitted, buttons[j]).None?
    ensures var kind := ButtonKind(cfg, permitted, buttons[i]).value;
            FirstButton(cfg, permitted, buttons)
            == Some(Action(kind, kind + ":text:" + cfg.captionTag(buttons[i].caption), None, Some(buttons[i].caption)))
  {
    hide ButtonKind;
    if i > 0 {
      assert forall j | 0 <= j < i - 1 :: buttons[1..][j] == buttons[j + 1];
      FirstButtonIs(cfg, permitted, buttons[1..], i - 1);
    }
  }

  lemma ButtonOpens(cfg: Config, v: View, b: Button)
    ensures ButtonKind(cfg, Permitted(cfg, v), b)
            == if !ButtonOpen(cfg, v, b) then None
               else if cfg.expandsPost(b.caption) then Some("expand_post") else Some("expand_comments")
  {
    hide Passes, Allowed, Permitted;
    if b.post.Some? { AllowedPasses(cfg, v, b.post.value); }
  }

  lemma NoneOpen(cfg: Config, v: View, marks: seq<Marked>)
    requires forall m | m in marks :: !MarkOpen(cfg, v, m)
    ensures FirstMark(cfg, Permitted(cfg, v), marks) == None
  {
    hide Passes, Allowed, Permitted;
    MarkFound(cfg, Permitted(cfg, v), marks);
    forall m | m in marks ensures !(m.visible && Passes(cfg, Permitted(cfg, v), m.value)) {
      AllowedPasses(cfg, v, m.value);
      assert !MarkOpen(cfg, v, m);
    }
  }

  lemma FirstOpen(cfg: Config, v: View, marks: seq<Marked>, i: nat)
    requires i < |marks| && MarkOpen(cfg, v, marks[i]) && forall j | 0 <= j < i :: !MarkOpen(cfg, v, marks[j])
    ensures FirstMark(cfg, Permitted(cfg, v), marks) == Some(marks[i].value)
  {
    hide Passes, Allowed, Permitted;
    var permitted := Permitted(cfg, v);
    AllowedPasses(cfg, v, marks[i].value);
    forall j | 0 <= j < i ensures !(marks[j].visible && Passes(cfg, permitted, marks[j].value)) {
      AllowedPasses(cfg, v, marks[j].value);
      assert !MarkOpen(cfg, v, marks[j]);
    }
    FirstMarkIs(cfg, permitted, marks, i);
  }

  /** The first open Post mark is expanded next. */
  lemma {:induction false} ExpandsPostFirst(cfg: Config, v: View, completed: seq<string>, captured: set<string>, i: nat)
    requires i < |v.postMarks| && MarkOpen(cfg, v, v.postMarks[i])
    requires forall j | 0 <= j < i :: !MarkOpen(cfg, v, v.postMarks[j])
    ensures var value := v.postMarks[i].value;
            Derive(cfg, v, completed, captured)
            == Some(Action("expand_post", "expand_post:" + value,
                           Some("[data-pgscan-expand-post=" + cfg.quote(value) + "]"), None))
  {
    hide MarkOpen, Permitted, FirstMark, FirstButton, BoundaryReached;
    FirstOpen(cfg, v, v.postMarks, i);
    assert "expand_post" + ":" == "expand_post:";
    assert "[" + "data-pgscan-expand-post" + "=" == "[data-pgscan-expand-post=";
  }

  /** With no open Post mark, the first open Comment mark is. */
  lemma {:induction false} ThenExpandsComments(
    cfg: Config, v: View, completed: seq<string>, captured: set<string>, i: nat)
    requires forall m | m in v.postMarks :: !MarkOpen(cfg, v, m)
    requires i < |v.commentMarks| && MarkOpen(cfg, v, v.commentMarks[i])
    requires forall j | 0 <= j < i :: !MarkOpen(cfg, v, v.commentMarks[j])
    ensures var value := v.commentMarks[i].value;
            Derive(cfg, v, completed, captured)
            == Some(Action("expand_comments", "expand_comments:" + value,
                           Some("[data-pgscan-expand-comments=" + cfg.quote(value) + "]"), None))
  {
    hide MarkOpen, Permitted, FirstMark, FirstButton, BoundaryReached;
    NoneOpen(cfg, v, v.postMarks);
    FirstOpen(cfg, v, v.commentMarks, i);
    assert "expand_comments" + ":" == "expand_comments:";
    assert "[" + "data-pgscan-expand-comments" + "=" == "[data-pgscan-expand-comments=";
  }

  /** With no open mark, the first open button is pressed. */
  lemma {:induction false} ThenPresses(cfg: Config, v: View, completed: seq<string>, captured: set<string>, i: nat)
    requires forall m | m in v.postMarks || m in v.commentMarks :: !MarkOpen(cfg, v, m)
    requires i < |v.buttons| && ButtonOpen(cfg, v, v.buttons[i])
    requires forall j | 0 <= j < i :: !ButtonOpen(cfg, v, v.buttons[j])
    ensures var caption := v.buttons[i].caption;
            var kind := if cfg.expandsPost(caption) then "expand_post" else "expand_comments";
            Derive(cfg, v, completed, captured)
            == Some(Action(kind, kind + ":text:" + cfg.captionTag(caption), None, Some(caption)))
  {
    hide MarkOpen, ButtonOpen, Permitted, FirstMark, FirstButton, BoundaryReached, ButtonKind;
    NoneOpen(cfg, v, v.postMarks);
    NoneOpen(cfg, v, v.commentMarks);
    ButtonOpens(cfg, v, v.buttons[i]);
    forall j | 0 <= j < i ensures ButtonKind(cfg, Permitted(cfg, v), v.buttons[j]).None? {
      ButtonOpens(cfg, v, v.buttons[j]);
    }
    FirstButtonIs(cfg, Permitted(cfg, v), v.buttons, i);
  }

  /** With nothing open, the page is scrolled while too few Posts are captured and
      shown, there is no boundary mark and every shown time is later than the lower
      bound; otherwise the session is done. */
  lemma {:induction false} ThenScrollsOrEnds(cfg: Config, v: View, completed: seq<string>, captured: set<string>)
    requires forall m | m in v.postMarks || m in v.commentMarks :: !MarkOpen(cfg, v, m)
    requires forall b | b in v.buttons :: !ButtonOpen(cfg, v, b)
    ensures |captured| < cfg.maxRecent && |set a | a in v.anchors && a.Some? :: a.value| < cfg.maxRecent
            && !v.boundaryMarked
            && (cfg.lowerBound == None || forall t | t in v.times :: cfg.lowerBound.value < t) ==>
              Derive(cfg, v, completed, captured)
              == Some(Action("scroll",
                             "scroll:" + Decimal(|set i | 0 <= i < |completed| && "scroll:" <= completed[i]| + 1),
                             None, None))
    ensures |captured| >= cfg.maxRecent || |set a | a in v.anchors && a.Some? :: a.value| >= cfg.maxRecent
            || v.boundaryMarked
            || (cfg.lowerBound.Some? && exists t | t in v.times :: t <= cfg.lowerBound.value) ==>
              Derive(cfg, v, completed, captured) == None
  {
    hide MarkOpen, ButtonOpen, Permitted, FirstMark, FirstButton, ButtonKind;
    NoneOpen(cfg, v, v.postMarks);
    NoneOpen(cfg, v, v.commentMarks);
    forall b | b in v.buttons ensures ButtonKind(cfg, Permitted(cfg, v), b).None? {
      ButtonOpens(cfg, v, b);
    }
    ButtonFound(cfg, Permitted(cfg, v), v.buttons);
    assert (set i | 0 <= i < |completed| && "scroll:" <= completed[i])
           == set i | 0 <= i < |completed| && StartsWith(completed[i], "scroll:");
  }

  // -------------------------------------------------------- which Posts stay

  /** The scan keeps the Posts without identifier and the captured ones, in order. */
  lemma {:induction false} KeptInOrder(posts: seq<Post>, p: Post, captured: set<string>)
    ensures Kept([], captured) == []
    ensures Kept(posts + [p], captured)
            == Kept(posts, captured) + if p.id == None || p.id.value in captured then [p] else []
  {
    assert (posts + [p])[..|posts|] == posts;
  }

  // ---------------------------------------------------------------- one call

  /** What one more call of a session answers, from its limits and from what the
      page does. */
  lemma {:induction false} NextCallAnswers<S(!new)>(cfg: Config, site: Site<S>, s: Session<S>)
    requires Inverse(cfg.codec) && s.page.Some? && s.pending.Some?
    ensures var c := Encode(cfg.codec, cfg.target, s.completed, s.pending.value);
            var r := Call(cfg, site, s, Some(c));
            var there := site.view(s.page.value);
            if s.pages >= cfg.maxPages then r == Err("page_limit")
            else if there.failure.Some? then r == Err(there.failure.value)
            else if s.interactions >= cfg.maxInteractions then r == Err("interaction_limit")
            else if site.act(s.page.value, s.pending.value) == None then r == Err("interaction_failed")
            else
              var page := site.act(s.page.value, s.pending.value).value;
              Answers(cfg, site, s, page, s.interactions + 1, s.completed + [s.pending.value.key], r)
  {
    hide Encode, Decode, Payload, Admit, PostIds, Kept, Derive;
    CheckpointRoundTrip(cfg.codec, cfg.target, cfg.target, s.completed, s.pending.value);
  }

  /** An open session goes on from its own last checkpoint and from no other text. */
  lemma {:induction false} OnlyOwnCheckpoint<S(!new)>(cfg: Config, site: Site<S>, s: Session<S>, c: string)
    requires s.page.Some? && s.pages < cfg.maxPages
    requires s.pending == None || Decode(cfg.codec, cfg.target, c) != Ok((s.completed, s.pending.value))
    ensures Call(cfg, site, s, Some(c)) == Err("checkpoint_invalid")
  {
    hide Decode, Payload, Execute;
    var decoded := Decode(cfg.codec, cfg.target, c);
    if decoded.Ok? && s.pending.Some? {
      PayloadRoundTrip(decoded.value.1);
      PayloadRoundTrip(s.pending.value);
    }
  }

  /** A new session refuses a text that is no checkpoint of its target. */
  lemma {:induction false} NoForeignCheckpoint<S(!new)>(cfg: Config, site: Site<S>, c: string)
    requires cfg.maxPages > 0 && site.view(site.root).failure == None && site.view(site.root).ready
    requires Decode(cfg.codec, cfg.target, c).Err?
    ensures Call(cfg, site, Opening(), Some(c)) == Err("checkpoint_invalid")
  {
    hide Decode, ReplayKeys;
  }

  /** And the first call, on the opening page. */
  lemma {:induction false} FirstCallAnswers<S(!new)>(cfg: Config, site: Site<S>)
    ensures var r := Call(cfg, site, Opening(), None);
            if cfg.maxPages == 0 then r == Err("page_limit")
            else Answers(cfg, site, Opening(), site.root, 0, [], r)
  {
    hide Encode, Admit, PostIds, Kept, Derive;
  }

  /** A page is returned with its bounds kept, or the reason it is not. */
  ghost predicate Answers<S(!new)>(
    cfg: Config, site: Site<S>, s: Session<S>, page: S, interactions: nat, completed: seq<string>,
    r: Result<(Session<S>, Rendered), string>)
  {
    var v := site.view(page);
    var captured := Admit(s.captured, PostIds(v.posts), cfg.known, cfg.maxRecent);
    var raw := cfg.render(v, Kept(v.posts, captured));
    if v.failure.Some? then r == Err(v.failure.value)
    else if !v.ready then r == Err("layout_drift")
    else if s.storage + |raw| > cfg.maxStorage then r == Err("storage_limit")
    else if !v.progress && s.empties >= 1 && s.empties + 1 >= cfg.maxEmpty then
      r == Err("empty_group_shell_no_post_progress")
    else
      && r.Ok?
      && var (t, rendered) := r.value;
         var next := Derive(cfg, v, completed, captured);
         && t == Session(Some(page), s.pages + 1, interactions, s.storage + |raw|, completed, captured,
                         if v.progress then 0 else s.empties + 1, next)
         && rendered == Rendered(raw, if next == None then None
                                      else Some(Encode(cfg.codec, cfg.target, completed, next.value)))
  }

  /** A session never goes over its limits. */
  lemma {:induction false} SessionWithin<S(!new)>(cfg: Config, site: Site<S>, k: nat)
    requires Inverse(cfg.codec) && Runs(cfg, site, k).Ok?
    ensures var s := Runs(cfg, site, k).value.0;
            && s.pages == k + 1 <= cfg.maxPages && s.interactions == k && (k > 0 ==> k <= cfg.maxInteractions)
            && s.storage <= cfg.maxStorage
  {
    hide Encode, Admit, PostIds, Kept, Derive, Call;
    if k == 0 {
      FirstCallAnswers(cfg, site);
    } else {
      SessionWithin(cfg, site, k - 1);
      HistoryCounts(cfg, site, k - 1);
      NextCallAnswers(cfg, site, Runs(cfg, site, k - 1).value.0);
    }
  }
}
