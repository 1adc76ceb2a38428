/**
 * The plugin tool's block lifecycle as a pure state machine: construction, render,
 * paste (the synchronous part of fetchLinkData), settling of a metadata fetch
 * (the rest of fetchLinkData, onFetch, fetchingFailed) and the cancel action
 * (src/index.js:84-245, 428-512).
 */
module Lifecycle {
  import opened Wrappers
  import opened BlockData
  import JsString

  /** The error notifications `fetchingFailed` shows, by their i18n key. */
  datatype Notice = CouldNotFetch | CouldNotGetData | WrongFormat {
    function Key(): string {
      match this
      case CouldNotFetch => "Couldn't fetch the plugin data"
      case CouldNotGetData => "Couldn't get this plugin data, try the other one"
      case WrongFormat => "Wrong response format from the server"
    }
  }

  /**
   * What the container last had appended: nothing yet (before `render`), a bare anchor
   * whose href and text are `href`, or the rich preview of `meta` linking to `href`.
   */
  datatype View = NothingShown | BareLink(href: string) | Preview(href: string, meta: Meta)

  /** The decoded body of the endpoint's reply: `success` truthy or not, `meta` if present. */
  datatype Response = Response(success: bool, meta: Option<Meta>)

  /** How the `ajax.get` promise settles: rejected, or resolved with a (possibly falsy) body. */
  datatype FetchResult = Rejected | Resolved(body: Option<Response>)

  /**
   * The tool's observable state: its data, the read-only flag, whether the preloader
   * is active, what is shown, the notifications shown so far, and the URLs whose
   * fetch has been issued and has not yet settled.
   */
  datatype State = State(
    data: Data,
    readOnly: bool,
    loading: bool,
    shown: View,
    notices: seq<Notice>,
    inFlight: multiset<string>)

  /** The constructor: the saved data merged over `{link: '', meta: {}}`. */
  function Init(saved: Update, readOnly: bool): (s: State)
    ensures s.data.link == (if LinkTruthy(saved.link) then saved.link.value else "")
    ensures s.data.meta == (if saved.meta.Some? then saved.meta.value else map[])
    ensures s.readOnly == readOnly
    ensures !s.loading && s.shown == NothingShown && s.notices == [] && s.inFlight == multiset{}
  {
    State(Merge(Default, saved), readOnly, false, NothingShown, [], multiset{})
  }

  /** The branch of `render`: a preview exactly when `meta` has at least one key. */
  function ViewOf(d: Data): (v: View)
    ensures v.Preview? <==> |d.meta| > 0
    ensures v.Preview? ==> v.meta == d.meta
    ensures v.BareLink? || v.Preview?
    ensures v.href == d.link
  {
    if |d.meta| > 0 then Preview(d.link, d.meta) else BareLink(d.link)
  }

  /** `render`: rebuilds the view from the data, with a fresh, inactive preloader. */
  function RenderStep(s: State): (t: State)
    ensures t.data == s.data && t.notices == s.notices && t.inFlight == s.inFlight
    ensures t.shown == ViewOf(s.data) && !t.loading && t.readOnly == s.readOnly
  {
    s.(shown := ViewOf(s.data), loading := false)
  }

  /**
   * `onPaste`: `fetchLinkData(url)` runs up to its `await` (preloader on, `data = {link: url}`,
   * request issued), then `showLoading(url)`. The preloader exists only once `render` has
   * run; before that the first `showLoading` throws and nothing happens (see `Step`).
   */
  function PasteStep(s: State, url: string): (t: State)
    requires s.shown != NothingShown
    ensures url != "" ==> t.data == Data(url, s.data.meta)
    ensures url == "" ==> t.data == s.data
    ensures t.loading && t.inFlight == s.inFlight + multiset{url}
    ensures t.shown == s.shown && t.notices == s.notices && t.readOnly == s.readOnly
  {
    s.(loading := true,
       data := Merge(s.data, Update(Some(url), None)),
       inFlight := s.inFlight + multiset{url})
  }

  /** `fetchingFailed`: one notification, then a bare anchor to the current `data.link`. */
  function FailStep(s: State, n: Notice): (t: State)
    ensures t.data == s.data && t.loading == s.loading && t.inFlight == s.inFlight
    ensures t.readOnly == s.readOnly
    ensures t.notices == s.notices + [n]
    ensures t.shown == BareLink(s.data.link)
  {
    s.(notices := s.notices + [n], shown := BareLink(s.data.link))
  }

  /** `onFetch` applied to a resolved body. */
  function OnFetchStep(s: State, body: Option<Response>): (t: State)
    ensures t.data.link == s.data.link && t.inFlight == s.inFlight && t.readOnly == s.readOnly
    ensures body.None? || !body.value.success ==>
      t.data == s.data && t.shown == BareLink(s.data.link) && t.notices == s.notices + [CouldNotGetData]
      && t.loading == s.loading
    ensures body.Some? && body.value.success && body.value.meta.None? ==>
      t.data == s.data && t.shown == BareLink(s.data.link) && t.notices == s.notices + [WrongFormat]
      && t.loading == s.loading
    ensures body.Some? && body.value.success && body.value.meta.Some? ==>
      t.data.meta == body.value.meta.value && t.notices == s.notices && !t.loading
      && t.shown == Preview(s.data.link, body.value.meta.value)
  {
    if body.None? || !body.value.success then
      FailStep(s, CouldNotGetData)
    else
      var s1 := s.(data := Merge(s.data, Update(None, body.value.meta)));
      if body.value.meta.None? then
        FailStep(s1, WrongFormat)
      else
        s1.(loading := false, shown := Preview(s1.data.link, body.value.meta.value))
  }

  /**
   * The continuation of `fetchLinkData(url)`: the preloader is hidden, then a rejected
   * request reports `CouldNotFetch` and a resolved one goes to `onFetch`.
   */
  function SettleStep(s: State, url: string, result: FetchResult): (t: State)
    requires url in s.inFlight
    ensures !t.loading && t.inFlight == s.inFlight - multiset{url}
    ensures t.data.link == s.data.link && t.readOnly == s.readOnly
    ensures result.Rejected? ==>
      t.data == s.data && t.shown == BareLink(s.data.link) && t.notices == s.notices + [CouldNotFetch]
    ensures result.Resolved? ==>
      t == OnFetchStep(s.(loading := false, inFlight := s.inFlight - multiset{url}), result.body)
  {
    var s1 := s.(loading := false, inFlight := s.inFlight - multiset{url});
    match result
    case Rejected => FailStep(s1, CouldNotFetch)
    case Resolved(body) => OnFetchStep(s1, body)
  }

  /** `cancelLinkPreview`, reachable only through the cancel button, which read-only mode omits. */
  function CancelStep(s: State): (t: State)
    requires !s.readOnly
    ensures t.data == Data(s.data.link, map[])
    ensures t.shown == BareLink(s.data.link)
    ensures t.loading == s.loading && t.notices == s.notices && t.inFlight == s.inFlight
    ensures t.readOnly == s.readOnly
  {
    s.(data := s.data.(meta := map[]), shown := BareLink(s.data.link))
  }

  /** `validate`: the block is kept exactly when its link, trimmed, is not ''. */
  function Validate(d: Data): (ok: bool)
    ensures !ok <==> JsString.Blank(d.link)
    ensures ok <==> exists i :: 0 <= i < |d.link| && !JsString.IsJsWhitespace(d.link[i])
  {
    JsString.Trim(d.link) != ""
  }

  /** The preloader is never left on when no request is outstanding. */
  predicate Inv(s: State) {
    s.loading ==> |s.inFlight| > 0
  }

  /** Everything that can happen to a block, in the order the host and the network deliver it. */
  datatype Event =
    | Rendered
    | Pasted(url: string)
    | Settled(url: string, result: FetchResult)
    | CancelClicked

  /**
   * One event. A paste before the first render throws in `showLoading` (the preloader
   * is still null) before it changes anything. A settlement for a URL with no outstanding
   * request cannot happen, and the cancel button exists only once `render` has built it
   * and only when the block is editable. All these leave the state as it is.
   */
  function Step(s: State, e: Event): State {
    match e
    case Rendered => RenderStep(s)
    case Pasted(url) => if s.shown == NothingShown then s else PasteStep(s, url)
    case Settled(url, result) => if url in s.inFlight then SettleStep(s, url, result) else s
    case CancelClicked => if s.readOnly || s.shown == NothingShown then s else CancelStep(s)
  }

  function Run(s: State, es: seq<Event>): State
    decreases |es|
  {
    if es == [] then s else Run(Step(s, es[0]), es[1..])
  }

  /**
   * Reference definition of the link once the block has been rendered: the last non-empty
   * pasted URL, else the initial link.
   */
  function LastPasted(link: string, es: seq<Event>): string
    decreases |es|
  {
    if es == [] then link
    else LastPasted(if es[0].Pasted? && es[0].url != "" then es[0].url else link, es[1..])
  }

  lemma InitEstablishes(saved: Update, readOnly: bool)
    ensures Inv(Init(saved, readOnly))
  {
  }

  lemma StepPreserves(s: State, e: Event)
    requires Inv(s)
    ensures Inv(Step(s, e))
  {
  }

  /** Over any sequence of events the preloader is active only while some request is outstanding. */
  lemma {:induction false} RunPreserves(s: State, es: seq<Event>)
    requires Inv(s)
    ensures Inv(Run(s, es))
    decreases |es|
  {
    if es != [] {
      StepPreserves(s, es[0]);
      RunPreserves(Step(s, es[0]), es[1..]);
    }
  }

  /** Once rendered, a block never goes back to showing nothing. */
  lemma StepKeepsRendered(s: State, e: Event)
    requires s.shown != NothingShown
    ensures Step(s, e).shown != NothingShown
  {
  }

  /** A paste that arrives before the first render changes nothing and issues no request. */
  lemma PasteBeforeRenderIgnored(saved: Update, readOnly: bool, url: string)
    ensures Step(Init(saved, readOnly), Pasted(url)) == Init(saved, readOnly)
  {
  }

  /** A cancel before the first render changes nothing: the cancel button does not exist yet. */
  lemma CancelBeforeRenderIgnored(saved: Update, readOnly: bool)
    ensures Step(Init(saved, readOnly), CancelClicked) == Init(saved, readOnly)
  {
  }

  /**
   * Only a paste changes the link: render, fetch results (whatever URL they were issued
   * for) and cancel all keep it.
   */
  lemma {:induction false} RunLinkIsLastPasted(s: State, es: seq<Event>)
    requires s.shown != NothingShown
    ensures Run(s, es).data.link == LastPasted(s.data.link, es)
    decreases |es|
  {
    if es != [] {
      StepKeepsRendered(s, es[0]);
      RunLinkIsLastPasted(Step(s, es[0]), es[1..]);
    }
  }

  /** `b` extends `a`. */
  predicate IsPrefix(a: seq<Notice>, b: seq<Notice>) {
    |a| <= |b| && b[..|a|] == a
  }

  lemma StepKeepsNotices(s: State, e: Event)
    ensures IsPrefix(s.notices, Step(s, e).notices)
  {
  }

  /** Notifications are only ever appended. */
  lemma {:induction false} RunKeepsNotices(s: State, es: seq<Event>)
    ensures IsPrefix(s.notices, Run(s, es).notices)
    decreases |es|
  {
    if es != [] {
      var s1 := Step(s, es[0]);
      StepKeepsNotices(s, es[0]);
      RunKeepsNotices(s1, es[1..]);
      var n := Run(s1, es[1..]).notices;
      assert n[..|s.notices|] == n[..|s1.notices|][..|s.notices|];
    }
  }

  /** Whatever the data, `render` shows a preview exactly when `meta` has a key; cancel then always gives a bare link. */
  lemma CancelThenRenderIsBare(s: State)
    requires !s.readOnly
    ensures RenderStep(CancelStep(s)).shown == BareLink(s.data.link)
    ensures RenderStep(CancelStep(s)).data == CancelStep(s).data
  {
  }

  /** Render does not change the data, so two saves around it agree. */
  lemma RenderKeepsSave(s: State)
    ensures RenderStep(s).data == s.data
    ensures RenderStep(RenderStep(s)) == RenderStep(s)
  {
  }

  /**
   * No stale-response guard: after pasting `a` then `b`, a successful reply for `a`
   * installs a's metadata under b's link, hides the preloader while b is still pending.
   */
  lemma StaleResultOverwritesMeta(s: State, a: string, b: string, m: Meta)
    requires s.shown != NothingShown
    requires a != "" && b != "" && a != b
    ensures
      var t := SettleStep(PasteStep(PasteStep(s, a), b), a, Resolved(Some(Response(true, Some(m)))));
      t.data == Data(b, m) && t.shown == Preview(b, m) && !t.loading && b in t.inFlight
  {
  }

  /**
   * A successful reply with `meta: {}` shows a preview (of nothing) although `render`
   * would show the bare link for the same data.
   */
  lemma EmptyMetaShowsPreview(s: State, url: string)
    requires url in s.inFlight
    ensures
      var t := SettleStep(s, url, Resolved(Some(Response(true, Some(map[])))));
      t.shown == Preview(s.data.link, map[]) && t.data.meta == map[] && ViewOf(t.data) == BareLink(s.data.link)
  {
  }

  /** A successful reply without `meta` keeps the previous meta through the setter's fallback. */
  lemma MissingMetaKeepsPrevious(s: State, url: string)
    requires url in s.inFlight
    ensures
      var t := SettleStep(s, url, Resolved(Some(Response(true, None))));
      t.data == s.data && t.notices == s.notices + [WrongFormat] && t.shown == BareLink(s.data.link)
  {
  }

  /** An empty block, a pasted URL and a successful reply end in a preview of the fetched meta. */
  lemma SuccessScenario(readOnly: bool)
    ensures
      var m := map["title" := Str("X"), "image" := Obj(Some("https://x.com/i.png"))];
      var s := RenderStep(Init(Update(None, None), readOnly));
      var p := PasteStep(s, "https://x.com");
      var t := Run(p, [Settled("https://x.com", Resolved(Some(Response(true, Some(m)))))]);
      s.shown == BareLink("") && !Validate(s.data)
      && t.data == Data("https://x.com", m) && t.shown == Preview("https://x.com", m)
      && t.notices == [] && !t.loading && Validate(t.data)
  {
    var m := map["title" := Str("X"), "image" := Obj(Some("https://x.com/i.png"))];
    var s := RenderStep(Init(Update(None, None), readOnly));
    assert s.data == Data("", map[]);
    var p := PasteStep(s, "https://x.com");
    assert p.data == Data("https://x.com", map[]);
    assert "https://x.com" in p.inFlight;
    var e := Settled("https://x.com", Resolved(Some(Response(true, Some(m)))));
    var t := SettleStep(p, "https://x.com", e.result);
    assert Step(p, e) == t;
    assert Run(p, [e]) == Run(Step(p, e), []);
    assert t.data == Data("https://x.com", m) && t.notices == [];
    assert !JsString.Blank("https://x.com") by {
      assert !JsString.IsJsWhitespace("https://x.com"[0]);
    }
  }

  /** A pasted URL whose request is rejected ends in a bare link, one notification and no meta. */
  lemma FailureScenario(readOnly: bool)
    ensures
      var s := RenderStep(Init(Update(None, None), readOnly));
      var t := Run(PasteStep(s, "https://bad.com"), [Settled("https://bad.com", Rejected)]);
      t.data == Data("https://bad.com", map[]) && t.shown == BareLink("https://bad.com")
      && t.notices == [CouldNotFetch] && !t.loading
  {
    var s := RenderStep(Init(Update(None, None), readOnly));
    assert "https://bad.com" in PasteStep(s, "https://bad.com").inFlight;
  }
}
