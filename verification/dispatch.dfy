/**
 * The open-method selector: which of the three opening strategies handles a
 * request, the one remote call each strategy makes, and the effects a
 * dispatch leaves behind (the call, preceded by a debug notice when the
 * selected method had to fall back to Deluge's own opener).
 */
module Dispatch {
  import opened Wrappers
  import opened PosixPath
  import opened OpenRequest

  /** The outgoing calls a dispatch can make. */
  datatype Call =
      /** org.xfce.FileManager.DisplayFolder(uri, display, startup_id) */
    | DisplayFolder(uri: string, display: string, startupId: string)
      /** org.xfce.FileManager.DisplayFolderAndSelect(uri, filename, display, startup_id) */
    | DisplayFolderAndSelect(uri: string, filename: string, display: string, startupId: string)
      /** org.freedesktop.FileManager1.ShowFolders(uris, startup_id) */
    | ShowFolders(uris: seq<string>, startupId: string)
      /** org.freedesktop.FileManager1.ShowItems(uris, startup_id) */
    | ShowItems(uris: seq<string>, startupId: string)
      /** deluge.common.open_file(path, timestamp); the timestamp is not modelled */
    | OpenFile(path: string)

  /** What the plugin leaves behind: remote calls and its two debug messages. */
  datatype Effect =
    | Remote(call: Call)
      /** "Selected open method broke, falling back to deluge" */
    | FallbackNotice
      /** "Something went wrong trying to get dbus interfaces" */
    | ProbeFailureNotice

  /** The three opening strategies. */
  datatype Strategy = Thunar | Freedesktop | DelugeOpener

  /** Python's truthiness of the file argument: present and not empty. */
  predicate Selects(file: Option<string>) {
    file.Some? && file.value != ""
  }

  /**
   * The strategy `dispatch_open` picks: Thunar when it is configured and the
   * XFCE interface is present, otherwise freedesktop when that is configured
   * and its interface is present, otherwise Deluge's own opener.
   */
  function Choose(openMethod: string, xfce: bool, fdo: bool): (s: Strategy)
    ensures s == Thunar <==> openMethod == "thunar" && xfce
    ensures s == Freedesktop <==> openMethod == "freedesktop" && fdo
    ensures s == DelugeOpener <==> !(openMethod == "thunar" && xfce) && !(openMethod == "freedesktop" && fdo)
  {
    if openMethod == "thunar" && xfce then Thunar
    else if openMethod == "freedesktop" && fdo then Freedesktop
    else DelugeOpener
  }

  /** The fallback is logged when Deluge's opener is reached without being the configured method. */
  predicate FallbackLogged(openMethod: string, xfce: bool, fdo: bool) {
    Choose(openMethod, xfce, fdo) == DelugeOpener && openMethod != "deluge"
  }

  /** `thunar_open`: show the folder, selecting the file when there is one. */
  function ThunarCall(folder: string, file: Option<string>): (c: Call)
    ensures c.DisplayFolder? || c.DisplayFolderAndSelect?
    ensures c.DisplayFolderAndSelect? <==> Selects(file)
    ensures c.uri == folder && c.display == "" && c.startupId == ""
    ensures c.DisplayFolderAndSelect? ==> c.filename == file.value
  {
    if !Selects(file) then DisplayFolder(folder, "", "")
    else DisplayFolderAndSelect(folder, file.value, "", "")
  }

  /**
   * `freedesktop_open`: show the folder, or the one item that is the file
   * joined onto the folder; either way a one-element list.
   */
  function FreedesktopCall(folder: string, file: Option<string>): (c: Call)
    ensures c.ShowFolders? || c.ShowItems?
    ensures c.ShowItems? <==> Selects(file)
    ensures |c.uris| == 1 && c.startupId == ""
    ensures c.ShowFolders? ==> c.uris[0] == folder
    ensures c.ShowItems? ==> c.uris[0] == Join(folder, file.value)
  {
    if !Selects(file) then ShowFolders([folder], "")
    else ShowItems([Join(folder, file.value)], "")
  }

  /** `deluge_open`: open the folder; the file argument is ignored. */
  function DelugeCall(folder: string, file: Option<string>): (c: Call)
    ensures c.OpenFile? && c.path == folder
  {
    OpenFile(folder)
  }

  /** The one remote call `dispatch_open` makes for a request. */
  function DispatchCall(openMethod: string, xfce: bool, fdo: bool, req: Request): Call {
    match Choose(openMethod, xfce, fdo)
    case Thunar => ThunarCall(req.folder, req.file)
    case Freedesktop => FreedesktopCall(req.folder, req.file)
    case DelugeOpener => DelugeCall(req.folder, req.file)
  }

  /** The remote calls among a sequence of effects, in order. */
  function Calls(effects: seq<Effect>): seq<Call> {
    if effects == [] then []
    else (if effects[0].Remote? then [effects[0].call] else []) + Calls(effects[1..])
  }

  /** Everything `dispatch_open` does once the open method is known. */
  function DispatchEffects(openMethod: string, xfce: bool, fdo: bool, req: Request): seq<Effect> {
    (if FallbackLogged(openMethod, xfce, fdo) then [FallbackNotice] else [])
      + [Remote(DispatchCall(openMethod, xfce, fdo, req))]
  }

  /**
   * A dispatch makes exactly one remote call, logs the fallback notice exactly
   * when the fallback is logged, and never a probe notice.
   */
  lemma DispatchMakesOneCall(openMethod: string, xfce: bool, fdo: bool, req: Request)
    ensures Calls(DispatchEffects(openMethod, xfce, fdo, req)) == [DispatchCall(openMethod, xfce, fdo, req)]
    ensures FallbackNotice in DispatchEffects(openMethod, xfce, fdo, req) <==> FallbackLogged(openMethod, xfce, fdo)
    ensures ProbeFailureNotice !in DispatchEffects(openMethod, xfce, fdo, req)
  {
    var call := DispatchCall(openMethod, xfce, fdo, req);
    assert Calls([Remote(call)]) == [call] by {
      assert [Remote(call)][1..] == [];
    }
    if FallbackLogged(openMethod, xfce, fdo) {
      assert ([FallbackNotice] + [Remote(call)])[1..] == [Remote(call)];
    } else {
      assert [] + [Remote(call)] == [Remote(call)];
    }
  }

  /** Dispatching each queued request in turn, in arrival order. */
  function ReplayEffects(openMethod: string, xfce: bool, fdo: bool, queue: seq<Request>): seq<Effect> {
    if queue == [] then []
    else
      var last := queue[|queue| - 1];
      ReplayEffects(openMethod, xfce, fdo, queue[..|queue| - 1]) + DispatchEffects(openMethod, xfce, fdo, last)
  }

  /** Replaying one more request of a queue appends that request's dispatch. */
  lemma ReplayOneMore(openMethod: string, xfce: bool, fdo: bool, queue: seq<Request>, i: nat)
    requires i < |queue|
    ensures ReplayEffects(openMethod, xfce, fdo, queue[..i + 1])
      == ReplayEffects(openMethod, xfce, fdo, queue[..i]) + DispatchEffects(openMethod, xfce, fdo, queue[i])
  {
    var done := queue[..i + 1];
    assert done[..i] == queue[..i] && done[i] == queue[i];
  }

  /**
   * Exactly one strategy makes the call, and the kind of call tells which:
   * an XFCE call exactly when Thunar is configured and present, a freedesktop
   * call exactly when freedesktop is configured and present, Deluge's opener
   * in every other case.
   */
  lemma DispatchCallStrategy(openMethod: string, xfce: bool, fdo: bool, req: Request)
    ensures var c := DispatchCall(openMethod, xfce, fdo, req);
      && ((c.DisplayFolder? || c.DisplayFolderAndSelect?) <==> openMethod == "thunar" && xfce)
      && ((c.ShowFolders? || c.ShowItems?) <==> openMethod == "freedesktop" && fdo)
      && (c.OpenFile? <==> Choose(openMethod, xfce, fdo) == DelugeOpener)
      && (c.OpenFile? ==> c == OpenFile(req.folder))
  {
  }

  /** Choosing Deluge's opener is silent; every other way of reaching it is logged. */
  lemma FallbackNoticeExactly(openMethod: string, xfce: bool, fdo: bool, req: Request)
    ensures openMethod == "deluge" ==> DispatchEffects(openMethod, xfce, fdo, req) == [Remote(OpenFile(req.folder))]
    ensures FallbackNotice in DispatchEffects(openMethod, xfce, fdo, req)
      <==> DispatchCall(openMethod, xfce, fdo, req).OpenFile? && openMethod != "deluge"
  {
  }

  /** A configured interface that is absent falls back to Deluge's opener, whatever the request. */
  lemma UnavailableInterfaceFallsBack(openMethod: string, xfce: bool, fdo: bool, req: Request)
    requires (openMethod == "thunar" && !xfce) || (openMethod == "freedesktop" && !fdo)
    ensures DispatchEffects(openMethod, xfce, fdo, req) == [FallbackNotice, Remote(OpenFile(req.folder))]
  {
  }

  /** The request of a multi-file torrent never makes a call that names a file. */
  lemma MultiFileNeverSelects(openMethod: string, xfce: bool, fdo: bool, savePath: string, files: seq<TorrentFile>)
    requires |files| > 1
    ensures var c := DispatchCall(openMethod, xfce, fdo, HowToOpen(savePath, files));
      c.DisplayFolder? || c.ShowFolders? || c.OpenFile?
  {
  }

  /** The remote calls of two effect sequences, concatenated, are theirs concatenated. */
  lemma {:induction false} CallsAppend(a: seq<Effect>, b: seq<Effect>)
    ensures Calls(a + b) == Calls(a) + Calls(b)
  {
    if a == [] {
      assert a + b == b;
    } else {
      var ab := a + b;
      assert ab[0] == a[0] && ab[1..] == a[1..] + b;
      CallsAppend(a[1..], b);
      var head := if a[0].Remote? then [a[0].call] else [];
      assert Calls(ab) == head + Calls(a[1..] + b);
      assert Calls(a) == head + Calls(a[1..]);
    }
  }

  /**
   * Replaying a queue makes exactly one remote call per queued request, in the
   * order the requests arrived.
   */
  lemma {:induction false} ReplayCallsInOrder(openMethod: string, xfce: bool, fdo: bool, queue: seq<Request>)
    ensures |Calls(ReplayEffects(openMethod, xfce, fdo, queue))| == |queue|
    ensures forall i :: 0 <= i < |queue| ==>
      Calls(ReplayEffects(openMethod, xfce, fdo, queue))[i] == DispatchCall(openMethod, xfce, fdo, queue[i])
  {
    if queue != [] {
      var front, last := queue[..|queue| - 1], queue[|queue| - 1];
      var earlier := ReplayEffects(openMethod, xfce, fdo, front);
      ReplayCallsInOrder(openMethod, xfce, fdo, front);
      CallsAppend(earlier, DispatchEffects(openMethod, xfce, fdo, last));
      DispatchMakesOneCall(openMethod, xfce, fdo, last);
      var calls := Calls(earlier) + [DispatchCall(openMethod, xfce, fdo, last)];
      assert Calls(ReplayEffects(openMethod, xfce, fdo, queue)) == calls;
      forall i | 0 <= i < |queue|
        ensures calls[i] == DispatchCall(openMethod, xfce, fdo, queue[i])
      {
        if i < |front| {
          assert front[i] == queue[i];
        }
      }
    }
  }
}
