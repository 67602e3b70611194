/** One browser session over a page that answers deterministically. */
module Browser {
  import opened Basics
  import opened Checkpoints
  import opened Strings

  // --------------------------------------------------------------- the page

  /** A Post of the page; `id` is its explicit or linked identifier. */
  datatype Post = Post(id: Option<string>, html: string)

  /** An element marked for expansion, with the marked value. */
  datatype Marked = Marked(value: string, visible: bool)

  /** A button with its normalized caption and the Post it stands in. */
  datatype Button = Button(caption: string, visible: bool, post: Option<string>)

  /** What the session can see: Posts in the order they are scanned, identifiers
      of Post anchors in document order, expansion marks, buttons, the boundary
      mark, the times shown, and the state of the page. */
  datatype View = View(
    posts: seq<Post>,
    anchors: seq<Option<string>>,
    postMarks: seq<Marked>,
    commentMarks: seq<Marked>,
    buttons: seq<Button>,
    boundaryMarked: bool,
    times: seq<int>,
    failure: Option<string>,
    ready: bool,
    progress: bool)

  datatype Site<!S> = Site(root: S, act: (S, Action) -> Option<S>, view: S -> View)

  datatype Config = Config(
    maxPages: nat,
    maxInteractions: nat,
    maxStorage: nat,
    maxRecent: nat,
    maxEmpty: nat,
    lowerBound: Option<int>,
    known: set<string>,
    target: string,
    codec: Codec,
    quote: string -> string,
    captionTag: string -> string,
    isReply: string -> bool,
    expandsPost: string -> bool,
    expandsComments: string -> bool,
    render: (View, seq<Post>) -> Bytes)

  // ------------------------------------------------------- which Posts stay

  /** The identifiers present, in order. */
  function Present(ids: seq<Option<string>>): seq<string> {
    if ids == [] then []
    else
      var front := Present(ids[..|ids| - 1]);
      if ids[|ids| - 1].Some? then front + [ids[|ids| - 1].value] else front
  }

  function IdsOf(posts: seq<Post>): (r: seq<Option<string>>)
    ensures |r| == |posts| && forall i | 0 <= i < |posts| :: r[i] == posts[i].id
  {
    seq(|posts|, i requires 0 <= i < |posts| => posts[i].id)
  }

  function PostIds(posts: seq<Post>): seq<string> {
    Present(IdsOf(posts))
  }

  /** Takes in identifiers in order, none known, until there are `max`. */
  function Admit(start: set<string>, ids: seq<string>, known: set<string>, max: nat): set<string> {
    if ids == [] then start
    else
      var taken := Admit(start, ids[..|ids| - 1], known, max);
      var id := ids[|ids| - 1];
      if id in known || |taken| >= max then taken else taken + {id}
  }

  predicate Stays(p: Post, captured: set<string>) {
    p.id.None? || p.id.value in captured
  }

  /** The Posts left in the page: those without identifier and those admitted. */
  function Kept(posts: seq<Post>, captured: set<string>): seq<Post> {
    if posts == [] then []
    else
      var front := Kept(posts[..|posts| - 1], captured);
      if Stays(posts[|posts| - 1], captured) then front + [posts[|posts| - 1]] else front
  }

  // -------------------------------------------------------- the next action

  predicate StartsWith(text: string, prefix: string) { prefix <= text }

  function Scrolls(completed: seq<string>): nat {
    |set i | 0 <= i < |completed| && StartsWith(completed[i], "scroll:")|
  }

  predicate Passes(cfg: Config, permitted: set<string>, id: string) {
    id !in cfg.known && (permitted == {} || id in permitted)
  }

  /** The first mark that may be expanded. */
  function FirstMark(cfg: Config, permitted: set<string>, marks: seq<Marked>): Option<string> {
    if marks == [] then None
    else if marks[0].visible && Passes(cfg, permitted, marks[0].value) then Some(marks[0].value)
    else FirstMark(cfg, permitted, marks[1..])
  }

  function MarkAction(cfg: Config, kind: string, attribute: string, value: string): Action {
    Action(kind, kind + ":" + value, Some("[" + attribute + "=" + cfg.quote(value) + "]"), None)
  }

  function ButtonKind(cfg: Config, permitted: set<string>, b: Button): Option<string> {
    if !b.visible || b.caption == "" || cfg.isReply(b.caption) then None
    else if b.post.Some? && !Passes(cfg, permitted, b.post.value) then None
    else if cfg.expandsPost(b.caption) then Some("expand_post")
    else if cfg.expandsComments(b.caption) then Some("expand_comments")
    else None
  }

  function FirstButton(cfg: Config, permitted: set<string>, buttons: seq<Button>): (r: Option<Action>)
    ensures r.Some? ==> r.value.text.Some?
  {
    if buttons == [] then None
    else
      match ButtonKind(cfg, permitted, buttons[0])
      case Some(kind) =>
        Some(Action(kind, kind + ":text:" + cfg.captionTag(buttons[0].caption), None, Some(buttons[0].caption)))
      case None => FirstButton(cfg, permitted, buttons[1..])
  }

  /** The first few identifiers in document order. */
  function Permitted(cfg: Config, v: View): set<string> {
    Admit({}, Present(v.anchors), {}, cfg.maxRecent)
  }

  function AnchorIds(v: View): set<string> {
    set a | a in v.anchors && a.Some? :: a.value
  }

  predicate BoundaryReached(cfg: Config, v: View, captured: set<string>) {
    || |captured| >= cfg.maxRecent
    || |AnchorIds(v)| >= cfg.maxRecent
    || v.boundaryMarked
    || (cfg.lowerBound.Some? && exists t | t in v.times :: t <= cfg.lowerBound.value)
  }

  /** Expansions first, then buttons, then a scroll until the boundary. */
  function Derive(cfg: Config, v: View, completed: seq<string>, captured: set<string>): Option<Action> {
    var permitted := Permitted(cfg, v);
    match FirstMark(cfg, permitted, v.postMarks)
    case Some(value) => Some(MarkAction(cfg, "expand_post", "data-pgscan-expand-post", value))
    case None =>
      match FirstMark(cfg, permitted, v.commentMarks)
      case Some(value) => Some(MarkAction(cfg, "expand_comments", "data-pgscan-expand-comments", value))
      case None =>
        match FirstButton(cfg, permitted, v.buttons)
        case Some(action) => Some(action)
        case None =>
          if BoundaryReached(cfg, v, captured) then None
          else Some(Action("scroll", "scroll:" + Decimal(Scrolls(completed) + 1), None, None))
  }

  // ------------------------------------------------------------ the session

  datatype Session<S> = Session(
    page: Option<S>,
    pages: nat,
    interactions: nat,
    storage: nat,
    completed: seq<string>,
    captured: set<string>,
    empties: nat,
    pending: Option<Action>)

  datatype Rendered = Rendered(raw: Bytes, next: Option<string>)

  function Opening<S>(): Session<S> {
    Session(None, 0, 0, 0, [], {}, 0, None)
  }

  function Supported(v: View): Option<string> {
    if v.failure.Some? then v.failure
    else if !v.ready then Some("layout_drift")
    else None
  }

  /** Performs one action and counts it. */
  function Execute<S>(cfg: Config, site: Site<S>, s: Session<S>, a: Action): Result<Session<S>, string>
    requires s.page.Some?
  {
    if site.view(s.page.value).failure.Some? then Err(site.view(s.page.value).failure.value)
    else if s.interactions >= cfg.maxInteractions then Err("interaction_limit")
    else
      match site.act(s.page.value, a)
      case None => Err("interaction_failed")
      case Some(page) =>
        match Supported(site.view(page))
        case Some(failure) => Err(failure)
        case None =>
          Ok(s.(page := Some(page), interactions := s.interactions + 1, completed := s.completed + [a.key]))
  }

  /** Does the completed actions again, each of which must be the one derived. */
  function ReplayKeys<S>(cfg: Config, site: Site<S>, s: Session<S>, keys: seq<string>): Result<Session<S>, string>
    requires s.page.Some?
    ensures ReplayKeys(cfg, site, s, keys).Ok? ==> ReplayKeys(cfg, site, s, keys).value.page.Some?
  {
    if keys == [] then Ok(s)
    else
      match ReplayKeys(cfg, site, s, keys[..|keys| - 1])
      case Err(e) => Err(e)
      case Ok(before) =>
        var action := Derive(cfg, site.view(before.page.value), before.completed, before.captured);
        if action.None? || action.value.key != keys[|keys| - 1] then Err("checkpoint_invalid")
        else Execute(cfg, site, before, action.value)
  }

  /** Opens the page, and brings it to where a checkpoint was taken. */
  function EnsurePage<S>(cfg: Config, site: Site<S>, s: Session<S>, checkpoint: Option<string>)
    : (r: Result<Session<S>, string>)
    ensures r.Ok? ==> r.value.page.Some?
  {
    if s.page.Some? then Ok(s)
    else
      match Supported(site.view(site.root))
      case Some(failure) => Err(failure)
      case None =>
        var ready := s.(page := Some(site.root));
        if checkpoint.None? then Ok(ready)
        else
          match Decode(cfg.codec, cfg.target, checkpoint.value)
          case Err(_) => Err("checkpoint_invalid")
          case Ok((completed, pending)) =>
            match ReplayKeys(cfg, site, ready, completed)
            case Err(e) => Err(e)
            case Ok(there) =>
              var derived := Derive(cfg, site.view(there.page.value), there.completed, there.captured);
              if derived.None? || Payload(derived.value) != Payload(pending) then Err("checkpoint_invalid")
              else Ok(there.(pending := derived))
  }

  /** Performs the checkpoint's next action. */
  function Perform<S>(cfg: Config, site: Site<S>, s: Session<S>, checkpoint: string): (r: Result<Session<S>, string>)
    requires s.page.Some?
    ensures r.Ok? ==> r.value.page.Some?
  {
    match Decode(cfg.codec, cfg.target, checkpoint)
    case Err(_) => Err("checkpoint_invalid")
    case Ok((completed, pending)) =>
      if completed != s.completed then Err("checkpoint_invalid")
      else if s.pending.None? || Payload(pending) != Payload(s.pending.value) then Err("checkpoint_invalid")
      else
        match Execute(cfg, site, s, pending)
        case Err(e) => Err(e)
        case Ok(done) => Ok(done.(pending := None))
  }

  /** Renders the page with its bounds, and derives the next checkpoint. */
  function Render<S>(cfg: Config, site: Site<S>, s: Session<S>): Result<(Session<S>, Rendered), string>
    requires s.page.Some?
  {
    var v := site.view(s.page.value);
    match Supported(v)
    case Some(failure) => Err(failure)
    case None =>
      var captured := Admit(s.captured, PostIds(v.posts), cfg.known, cfg.maxRecent);
      var raw := cfg.render(v, Kept(v.posts, captured));
      var storage := s.storage + |raw|;
      var empties := if v.progress then 0 else s.empties + 1;
      if storage > cfg.maxStorage then Err("storage_limit")
      else if empties > 1 && empties >= cfg.maxEmpty then Err("empty_group_shell_no_post_progress")
      else
        var pending := Derive(cfg, v, s.completed, captured);
        var next := if pending.None? then None else Some(Encode(cfg.codec, cfg.target, s.completed, pending.value));
        Ok((s.(pages := s.pages + 1, storage := storage, captured := captured, empties := empties, pending := pending),
            Rendered(raw, next)))
  }

  /** One call of the session. */
  function Call<S>(cfg: Config, site: Site<S>, s: Session<S>, checkpoint: Option<string>)
    : Result<(Session<S>, Rendered), string>
  {
    if s.pages >= cfg.maxPages then Err("page_limit")
    else
      match EnsurePage(cfg, site, s, checkpoint)
      case Err(e) => Err(e)
      case Ok(ready) =>
        match checkpoint
        case None => Render(cfg, site, ready)
        case Some(c) =>
          match Perform(cfg, site, ready, c)
          case Err(e) => Err(e)
          case Ok(done) => Render(cfg, site, done)
  }
}
