/** The browser session, step by step. */
module BrowserCapture {
  import opened Basics
  import opened Checkpoints
  import opened Browser
  import opened Strings

  lemma {:induction false} PresentMore(ids: seq<Option<string>>, id: Option<string>)
    ensures Present(ids + [id]) == Present(ids) + if id.Some? then [id.value] else []
  {
    assert (ids + [id])[..|ids|] == ids;
  }

  lemma AdmitMore(start: set<string>, ids: seq<string>, id: string, known: set<string>, max: nat)
    ensures var taken := Admit(start, ids, known, max);
            Admit(start, ids + [id], known, max) == if id in known || |taken| >= max then taken else taken + {id}
  {
    assert (ids + [id])[..|ids|] == ids;
  }

  lemma KeptMore(posts: seq<Post>, p: Post, captured: set<string>)
    ensures Kept(posts + [p], captured) == Kept(posts, captured) + if Stays(p, captured) then [p] else []
  {
    assert (posts + [p])[..|posts|] == posts;
  }

  /** Admitting more later changes nothing for the Posts already judged. */
  lemma {:induction false} KeptSame(posts: seq<Post>, a: set<string>, b: set<string>)
    requires forall p | p in posts :: Stays(p, a) == Stays(p, b)
    ensures Kept(posts, a) == Kept(posts, b)
  {
    if posts != [] {
      assert posts[|posts| - 1] in posts;
      KeptSame(posts[..|posts| - 1], a, b);
    }
  }

  lemma PostIdsMore(posts: seq<Post>, p: Post)
    ensures PostIds(posts + [p]) == PostIds(posts) + if p.id.Some? then [p.id.value] else []
  {
    var ids := IdsOf(posts);
    assert seq(|posts + [p]|, i requires 0 <= i < |posts + [p]| => (posts + [p])[i].id) == ids + [p.id];
    PresentMore(ids, p.id);
  }

  /** The Posts scanned so far are judged as the whole scan will judge them. */
  ghost predicate Scanned(cfg: Config, start: set<string>, posts: seq<Post>, captured: set<string>, kept: seq<Post>) {
    && captured == Admit(start, PostIds(posts), cfg.known, cfg.maxRecent)
    && captured !! cfg.known
    && kept == Kept(posts, captured)
    && forall p | p in posts && !Stays(p, captured) && p.id.value !in cfg.known :: |captured| >= cfg.maxRecent
  }

  /** What the scan does with one Post. */
  function Judge(cfg: Config, p: Post, captured: set<string>): (set<string>, bool) {
    if p.id.None? then (captured, true)
    else if p.id.value in cfg.known then (captured, false)
    else if p.id.value in captured then (captured, true)
    else if |captured| >= cfg.maxRecent then (captured, false)
    else (captured + {p.id.value}, true)
  }

  lemma ScanMore(cfg: Config, start: set<string>, posts: seq<Post>, p: Post, captured: set<string>, kept: seq<Post>)
    requires Scanned(cfg, start, posts, captured, kept)
    ensures var (next, stays) := Judge(cfg, p, captured);
            Scanned(cfg, start, posts + [p], next, if stays then kept + [p] else kept)
  {
    hide Admit, Kept, PostIds;
    var (next, stays) := Judge(cfg, p, captured);
    PostIdsMore(posts, p);
    if p.id.Some? {
      AdmitMore(start, PostIds(posts), p.id.value, cfg.known, cfg.maxRecent);
      assert p.id.value in captured ==> captured + {p.id.value} == captured;
    } else {
      assert PostIds(posts) + [] == PostIds(posts);
    }
    forall q | q in posts ensures Stays(q, captured) == Stays(q, next) {
    }
    KeptSame(posts, captured, next);
    KeptMore(posts, p, next);
    assert kept + [] == kept;
  }

  lemma ScannedAll(cfg: Config, start: set<string>, posts: seq<Post>, captured: set<string>, kept: seq<Post>)
    requires Scanned(cfg, start, posts, captured, kept)
    ensures captured == Admit(start, PostIds(posts), cfg.known, cfg.maxRecent) && kept == Kept(posts, captured)
  {
  }

  lemma ScanNothing(cfg: Config, start: set<string>)
    requires start !! cfg.known
    ensures Scanned(cfg, start, [], start, [])
  {
  }

  class BrowserSession<S(!new)> {
    const cfg: Config
    const site: Site<S>
    var page: Option<S>
    var pages: nat
    var interactions: nat
    var storage: nat
    var completed: seq<string>
    var captured: set<string>
    var empties: nat
    var pending: Option<Action>

    constructor (cfg: Config, site: Site<S>)
      requires cfg.maxRecent > 0
      ensures Valid() && this.cfg == cfg && this.site == site && Stand() == Opening()
    {
      this.cfg, this.site := cfg, site;
      page, pages, interactions, storage, completed := None, 0, 0, 0, [];
      captured, empties, pending := {}, 0, None;
    }

    function Stand(): Session<S>
      reads this
    {
      Session(page, pages, interactions, storage, completed, captured, empties, pending)
    }

    /** Limits are positive and no known Post has been captured. */
    predicate Valid()
      reads this
    {
      cfg.maxRecent > 0 && captured !! cfg.known
    }

    /** Goes over the Posts once: known ones go, new ones stay while there is
        room, and those already captured stay. */
    method BoundedHtml(posts: seq<Post>) returns (kept: seq<Post>)
      requires Valid()
      modifies this`captured
      ensures Valid() && captured == Admit(old(captured), PostIds(posts), cfg.known, cfg.maxRecent)
      ensures kept == Kept(posts, captured)
    {
      hide Scanned;
      ghost var start := captured;
      kept := [];
      ScanNothing(cfg, start);
      for i := 0 to |posts|
        invariant Valid() && Scanned(cfg, start, posts[..i], captured, kept)
      {
        var p := posts[i];
        ScanMore(cfg, start, posts[..i], p, captured, kept);
        assert posts[..i + 1] == posts[..i] + [p];
        if p.id.None? {
          kept := kept + [p];
        } else if p.id.value in cfg.known {
        } else if p.id.value in captured {
          kept := kept + [p];
        } else if |captured| >= cfg.maxRecent {
        } else {
          captured := captured + {p.id.value};
          kept := kept + [p];
        }
      }
      assert posts[..|posts|] == posts;
      ScannedAll(cfg, start, posts, captured, kept);
    }

    /** The first identifiers in document order, each once. */
    method PermittedIds(v: View) returns (permitted: set<string>)
      requires Valid()
      ensures permitted == Permitted(cfg, v)
    {
      permitted := {};
      for i := 0 to |v.anchors|
        invariant permitted == Admit({}, Present(v.anchors[..i]), {}, cfg.maxRecent)
        invariant |permitted| < cfg.maxRecent
      {
        var a := v.anchors[i];
        assert v.anchors[..i + 1] == v.anchors[..i] + [a];
        PresentMore(v.anchors[..i], a);
        if a.Some? {
          AdmitMore({}, Present(v.anchors[..i]), a.value, {}, cfg.maxRecent);
          permitted := permitted + {a.value};
          if |permitted| >= cfg.maxRecent {
            AdmitFull(v.anchors, i + 1, permitted);
            return;
          }
        }
      }
      assert v.anchors[..|v.anchors|] == v.anchors;
    }

    /** The rest of the document adds nothing to a full set. */
    lemma {:induction false} AdmitFull(anchors: seq<Option<string>>, i: nat, permitted: set<string>)
      requires i <= |anchors| && permitted == Admit({}, Present(anchors[..i]), {}, cfg.maxRecent)
      requires |permitted| >= cfg.maxRecent
      ensures permitted == Admit({}, Present(anchors), {}, cfg.maxRecent)
      decreases |anchors| - i
    {
      hide Admit, Present;
      if i == |anchors| {
        assert anchors[..i] == anchors;
      } else {
        var ids := Present(anchors[..i]);
        assert anchors[..i + 1] == anchors[..i] + [anchors[i]] && ids + [] == ids;
        PresentMore(anchors[..i], anchors[i]);
        if anchors[i].Some? { AdmitMore({}, ids, anchors[i].value, {}, cfg.maxRecent); }
        AdmitFull(anchors, i + 1, permitted);
      }
    }

    method FindMark(permitted: set<string>, marks: seq<Marked>) returns (value: Option<string>)
      ensures value == FirstMark(cfg, permitted, marks)
    {
      for i := 0 to |marks|
        invariant FirstMark(cfg, permitted, marks) == FirstMark(cfg, permitted, marks[i..])
      {
        assert marks[i..][1..] == marks[i + 1..];
        if !marks[i].visible { continue; }
        if marks[i].value in cfg.known { continue; }
        if permitted != {} && marks[i].value !in permitted { continue; }
        return Some(marks[i].value);
      }
      return None;
    }

    method FindButton(permitted: set<string>, buttons: seq<Button>) returns (action: Option<Action>)
      ensures action == FirstButton(cfg, permitted, buttons)
    {
      for i := 0 to |buttons|
        invariant FirstButton(cfg, permitted, buttons) == FirstButton(cfg, permitted, buttons[i..])
      {
        var b := buttons[i];
        assert buttons[i..][1..] == buttons[i + 1..];
        if !b.visible || b.caption == "" || cfg.isReply(b.caption) { continue; }
        if b.post.Some? && b.post.value in cfg.known { continue; }
        if b.post.Some? && permitted != {} && b.post.value !in permitted { continue; }
        var kind := if cfg.expandsPost(b.caption) then Some("expand_post")
                    else if cfg.expandsComments(b.caption) then Some("expand_comments") else None;
        if kind.Some? {
          return Some(Action(kind.value, kind.value + ":text:" + cfg.captionTag(b.caption), None, Some(b.caption)));
        }
      }
      return None;
    }

    method HistoryBoundaryReached(v: View) returns (reached: bool)
      ensures reached == BoundaryReached(cfg, v, captured)
      ensures reached <==>
                || |captured| >= cfg.maxRecent
                || |set a | a in v.anchors && a.Some? :: a.value| >= cfg.maxRecent
                || v.boundaryMarked
                || (cfg.lowerBound.Some? && exists t | t in v.times :: t <= cfg.lowerBound.value)
    {
      if |captured| >= cfg.maxRecent {
        return true;
      }
      var ids: set<string> := {};
      for i := 0 to |v.anchors|
        invariant ids == set a | a in v.anchors[..i] && a.Some? :: a.value
      {
        assert v.anchors[..i + 1] == v.anchors[..i] + [v.anchors[i]];
        if v.anchors[i].Some? { ids := ids + {v.anchors[i].value}; }
      }
      assert v.anchors[..|v.anchors|] == v.anchors;
      if |ids| >= cfg.maxRecent || v.boundaryMarked {
        return true;
      }
      if cfg.lowerBound.None? {
        return false;
      }
      for i := 0 to |v.times|
        invariant forall t | t in v.times[..i] :: cfg.lowerBound.value < t
      {
        assert v.times[..i + 1] == v.times[..i] + [v.times[i]];
        if v.times[i] <= cfg.lowerBound.value {
          assert v.times[i] in v.times;
          return true;
        }
      }
      assert v.times[..|v.times|] == v.times;
      return false;
    }

    method DeriveNextAction() returns (action: Option<Action>)
      requires Valid() && page.Some?
      ensures action == Derive(cfg, site.view(page.value), completed, captured)
    {
      hide Permitted, FirstMark, FirstButton, BoundaryReached;
      var v := site.view(page.value);
      var permitted := PermittedIds(v);
      var value := FindMark(permitted, v.postMarks);
      if value.Some? {
        return Some(MarkAction(cfg, "expand_post", "data-pgscan-expand-post", value.value));
      }
      value := FindMark(permitted, v.commentMarks);
      if value.Some? {
        return Some(MarkAction(cfg, "expand_comments", "data-pgscan-expand-comments", value.value));
      }
      action := FindButton(permitted, v.buttons);
      if action.Some? {
        return;
      }
      var reached := HistoryBoundaryReached(v);
      if reached {
        return None;
      }
      return Some(Action("scroll", "scroll:" + Decimal(Scrolls(completed) + 1), None, None));
    }

    method Act(a: Action) returns (failure: Option<string>)
      requires Valid() && page.Some?
      modifies this`page, this`interactions, this`completed
      ensures var r := Execute(cfg, site, old(Stand()), a);
              && (r.Ok? ==> failure.None? && Stand() == r.value && page.Some?)
              && (r.Err? ==> failure == Some(r.error))
    {
      var v := site.view(page.value);
      if v.failure.Some? {
        return v.failure;
      }
      if interactions >= cfg.maxInteractions {
        return Some("interaction_limit");
      }
      var next := site.act(page.value, a);
      if next.None? {
        return Some("interaction_failed");
      }
      page := next;
      var stop := Supported(site.view(next.value));
      if stop.Some? {
        return stop;
      }
      interactions := interactions + 1;
      completed := completed + [a.key];
      return None;
    }

    /** Does the actions of a checkpoint again, each of which must be the derived
        one. */
    method Retrace(keys: seq<string>) returns (failure: Option<string>)
      requires Valid() && page.Some?
      modifies this`page, this`interactions, this`completed
      ensures var r := ReplayKeys(cfg, site, old(Stand()), keys);
              && (r.Ok? ==> failure.None? && Stand() == r.value && page.Some?)
              && (r.Err? ==> failure == Some(r.error))
    {
      hide Execute, Derive;
      ghost var start := Stand();
      for i := 0 to |keys|
        invariant page.Some? && ReplayKeys(cfg, site, start, keys[..i]) == Ok(Stand())
        invariant captured == start.captured
      {
        assert keys[..i + 1][..i] == keys[..i];
        RetraceStops(start, keys, i + 1);
        var action := DeriveNextAction();
        if action.None? || action.value.key != keys[i] {
          return Some("checkpoint_invalid");
        }
        failure := Act(action.value);
        if failure.Some? {
          return;
        }
      }
      assert keys[..|keys|] == keys;
      failure := None;
    }

    lemma {:induction false} RetraceStops(s: Session<S>, keys: seq<string>, i: nat)
      requires s.page.Some? && i <= |keys|
      ensures ReplayKeys(cfg, site, s, keys[..i]).Err? ==>
                ReplayKeys(cfg, site, s, keys) == ReplayKeys(cfg, site, s, keys[..i])
      decreases |keys|
    {
      hide Execute, Derive;
      if i < |keys| {
        assert keys[..|keys| - 1][..i] == keys[..i];
        RetraceStops(s, keys[..|keys| - 1], i);
      } else {
        assert keys[..i] == keys;
      }
    }

    method Ensure(checkpoint: Option<string>) returns (failure: Option<string>)
      requires Valid()
      modifies this`page, this`interactions, this`completed, this`pending
      ensures var r := EnsurePage(cfg, site, old(Stand()), checkpoint);
              && (r.Ok? ==> failure.None? && Stand() == r.value && page.Some?)
              && (r.Err? ==> failure == Some(r.error))
    {
      hide ReplayKeys, Derive, Decode, Payload;
      if page.Some? {
        return None;
      }
      page := Some(site.root);
      failure := Supported(site.view(site.root));
      if failure.Some? || checkpoint.None? {
        return;
      }
      var decoded := Decode(cfg.codec, cfg.target, checkpoint.value);
      if decoded.Err? {
        return Some("checkpoint_invalid");
      }
      failure := Retrace(decoded.value.0);
      if failure.Some? {
        return;
      }
      var derived := DeriveNextAction();
      if derived.None? || Payload(derived.value) != Payload(decoded.value.1) {
        return Some("checkpoint_invalid");
      }
      pending := derived;
    }

    method PerformCheckpointedAction(checkpoint: string) returns (failure: Option<string>)
      requires Valid() && page.Some?
      modifies this`page, this`interactions, this`completed, this`pending
      ensures var r := Perform(cfg, site, old(Stand()), checkpoint);
              && (r.Ok? ==> failure.None? && Stand() == r.value && page.Some?)
              && (r.Err? ==> failure == Some(r.error))
    {
      hide Execute, Decode, Payload;
      var decoded := Decode(cfg.codec, cfg.target, checkpoint);
      if decoded.Err? || decoded.value.0 != completed {
        return Some("checkpoint_invalid");
      }
      var next := decoded.value.1;
      if pending.None? || Payload(next) != Payload(pending.value) {
        return Some("checkpoint_invalid");
      }
      failure := Act(next);
      if failure.None? {
        pending := None;
      }
    }

    method RenderPage() returns (r: Result<Rendered, string>)
      requires Valid() && page.Some?
      modifies this`pages, this`storage, this`captured, this`empties, this`pending
      ensures Valid()
      ensures var spec := Render(cfg, site, old(Stand()));
              && (spec.Ok? ==> r == Ok(spec.value.1) && Stand() == spec.value.0)
              && (spec.Err? ==> r == Err(spec.error))
    {
      hide Derive, Admit, Kept, PostIds, Encode;
      var v := site.view(page.value);
      var failure := Supported(v);
      if failure.Some? {
        return Err(failure.value);
      }
      var kept := BoundedHtml(v.posts);
      var raw := cfg.render(v, kept);
      pages := pages + 1;
      storage := storage + |raw|;
      if storage > cfg.maxStorage {
        return Err("storage_limit");
      }
      if v.progress {
        empties := 0;
      } else {
        empties := empties + 1;
        if !(empties < cfg.maxEmpty || empties == 1) {
          return Err("empty_group_shell_no_post_progress");
        }
      }
      pending := DeriveNextAction();
      var next := if pending.None? then None else Some(Encode(cfg.codec, cfg.target, completed, pending.value));
      return Ok(Rendered(raw, next));
    }

    /** One call: a page and the checkpoint of the next action, as `Browser.Call`
        has it, and the new stand. */
    method CapturePage(checkpoint: Option<string>) returns (r: Result<Rendered, string>)
      requires Valid()
      modifies this
      ensures Valid()
      ensures var spec := Call(cfg, site, old(Stand()), checkpoint);
              && (spec.Ok? ==> r == Ok(spec.value.1) && Stand() == spec.value.0)
              && (spec.Err? ==> r == Err(spec.error))
    {
      hide EnsurePage, Perform, Render;
      if pages >= cfg.maxPages {
        return Err("page_limit");
      }
      var failure := Ensure(checkpoint);
      if failure.Some? {
        return Err(failure.value);
      }
      if checkpoint.Some? {
        failure := PerformCheckpointedAction(checkpoint.value);
        if failure.Some? {
          return Err(failure.value);
        }
      }
      r := RenderPage();
    }
  }
}
