/**
 * The plugin tool object (src/index.js:32-512): its block data, preloader flag and
 * shown view are fields that its methods update in place. Each method is proved to
 * move the object exactly as the matching step of the Lifecycle state machine.
 */
module Plugin {
  import opened Wrappers
  import opened BlockData
  import opened Lifecycle
  import JsString

  class PluginTool {
    /** `_data`, read and written through the `data` accessors. */
    var data: Data
    const readOnly: bool
    /** Whether the preloader carries its active class. */
    var loading: bool
    /** What the container last had appended. */
    var shown: View
    /** The messages passed to `api.notifier.show`, in order. */
    ghost var notices: seq<Notice>
    /** The URLs whose `ajax.get` has been issued and not yet settled. */
    ghost var inFlight: multiset<string>

    ghost function Snapshot(): State
      reads this
    {
      State(data, readOnly, loading, shown, notices, inFlight)
    }

    /** `_data` starts as `{link: '', meta: {}}` and the saved data goes through the setter. */
    constructor (saved: Update, readOnly: bool)
      ensures Snapshot() == Init(saved, readOnly)
    {
      this.readOnly := readOnly;
      data := Default;
      loading := false;
      shown := NothingShown;
      notices := [];
      inFlight := multiset{};
      new;
      SetData(saved);
    }

    /** The `data` setter: per field, a truthy new value wins, otherwise the old one stays. */
    method SetData(u: Update)
      modifies this`data
      ensures data == Merge(old(data), u)
    {
      var link := if LinkTruthy(u.link) then u.link.value else data.link;
      var meta := if MetaTruthy(u.meta) then u.meta.value else data.meta;
      data := Data(link, meta);
    }

    /** `save`: hands the current data to the host and changes nothing. */
    method Save() returns (d: Data)
      ensures d == data
    {
      d := data;
    }

    /** `validate`: true exactly when the link has a character other than whitespace. */
    function Validate(): (ok: bool)
      reads this
      ensures ok <==> !JsString.Blank(data.link)
    {
      Lifecycle.Validate(data)
    }

    /** `render`: a fresh inactive preloader, then the preview or the bare link. */
    method Render() returns (v: View)
      modifies this`shown, this`loading
      ensures Snapshot() == RenderStep(old(Snapshot()))
      ensures v == shown
    {
      loading := false;
      if |data.meta| > 0 {
        ShowLinkPreview(data.meta);
      } else {
        ShowLinkWithoutPreview();
      }
      v := shown;
    }

    method ShowLinkWithoutPreview()
      modifies this`shown
      ensures shown == BareLink(data.link)
    {
      shown := BareLink(data.link);
    }

    method ShowLinkPreview(meta: Meta)
      modifies this`shown
      ensures shown == Preview(data.link, meta)
    {
      shown := Preview(data.link, meta);
    }

    method ShowLoading()
      modifies this`loading
      ensures loading
    {
      loading := true;
    }

    method HideLoading()
      modifies this`loading
      ensures !loading
    {
      loading := false;
    }

    /**
     * `onPaste`: starts the fetch for the pasted URL and shows the preloader. Before the
     * first render the preloader is null and `showLoading` throws before anything changes.
     */
    method OnPaste(url: string)
      modifies this
      ensures Snapshot() == Step(old(Snapshot()), Pasted(url))
    {
      if shown == NothingShown {
        return;
      }
      FetchLinkData(url);
      ShowLoading();
    }

    /** `fetchLinkData` up to its `await`: preloader on, `data = {link: url}`, request issued. */
    method FetchLinkData(url: string)
      requires shown != NothingShown
      modifies this`loading, this`data, this`inFlight
      ensures loading && data == Merge(old(data), Update(Some(url), None))
      ensures inFlight == old(inFlight) + multiset{url}
    {
      ShowLoading();
      SetData(Update(Some(url), None));
      inFlight := inFlight + multiset{url};
    }

    /** `fetchLinkData` after its `await`: hide the preloader, then report or hand to `onFetch`. */
    method FetchSettled(url: string, result: FetchResult)
      requires url in inFlight
      modifies this
      ensures Snapshot() == SettleStep(old(Snapshot()), url, result)
    {
      inFlight := inFlight - multiset{url};
      HideLoading();
      match result
      case Rejected =>
        FetchingFailed(url, CouldNotFetch);
      case Resolved(body) =>
        OnFetch(url, body);
    }

    /** `onFetch`: a falsy body or `success` fails; otherwise `meta` goes through the setter. */
    method OnFetch(url: string, response: Option<Response>)
      modifies this
      ensures Snapshot() == OnFetchStep(old(Snapshot()), response)
    {
      if response.None? || !response.value.success {
        FetchingFailed(url, CouldNotGetData);
        return;
      }
      var metaData := response.value.meta;
      SetData(Update(None, metaData));
      if metaData.None? {
        FetchingFailed(url, WrongFormat);
        return;
      }
      HideLoading();
      ShowLinkPreview(metaData.value);
    }

    /**
     * `fetchingFailed`: one notification and a bare link. `showLinkWithoutPreview` ignores
     * the `url` it is given and links to `data.link`.
     */
    method FetchingFailed(url: string, n: Notice)
      modifies this`notices, this`shown
      ensures notices == old(notices) + [n]
      ensures shown == BareLink(data.link)
    {
      notices := notices + [n];
      ShowLinkWithoutPreview();
    }

    /** `cancelLinkPreview`, wired to the cancel button that only an editable block has. */
    method CancelLinkPreview()
      requires !readOnly
      modifies this
      ensures Snapshot() == CancelStep(old(Snapshot()))
    {
      data := data.(meta := map[]);
      ShowLinkWithoutPreview();
    }
  }

  /** A client: the failure scenario driven through the object's own methods. */
  method FailedPasteLeavesBareLink() returns (saved: Data, v: View)
    ensures saved == Data("https://bad.com", map[]) && v == BareLink("https://bad.com")
  {
    var tool := new PluginTool(Update(None, None), false);
    v := tool.Render();
    tool.OnPaste("https://bad.com");
    tool.FetchSettled("https://bad.com", Rejected);
    assert tool.notices == [CouldNotFetch];
    saved := tool.Save();
    v := tool.shown;
  }
}
