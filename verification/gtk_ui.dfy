/**
 * The plugin object: the cached open method, the queue of requests that
 * arrive before the first configuration fetch completes, the availability of
 * the two desktop interfaces, and the effects it has produced so far.
 * Asynchronous callbacks (configuration fetched, torrent status received) are
 * modelled as method calls made in the order the event loop delivers them.
 */
module BetterOpenFolder {
  import opened Wrappers
  import opened OpenRequest
  import opened Dispatch

  /** The exceptions a callback can raise; the event loop reports and drops them. */
  datatype PyError = AttributeError | TypeError | IndexError

  /** How a callback ended. */
  datatype Outcome = Completed | Raised(error: PyError)

  /** A radio button of the preferences page: its widget name and whether it is active. */
  datatype RadioButton = RadioButton(name: string, active: bool)

  /** The index of the first active button of a radio group, if any is active. */
  function FirstActive(group: seq<RadioButton>): (r: Option<nat>)
    ensures r.Some? ==> r.value < |group| && group[r.value].active
    ensures r.Some? ==> forall j :: 0 <= j < r.value ==> !group[j].active
    ensures r.None? ==> forall j :: 0 <= j < |group| ==> !group[j].active
  {
    if group == [] then None
    else if group[0].active then Some(0)
    else match FirstActive(group[1..])
      case None => None
      case Some(k) => Some(k + 1)
  }

  class GtkUI {
    /** `open_method`: absent until the first configuration arrives or preferences are applied. */
    var openMethod: Option<string>
    /** `pending_open`: a list while the first configuration is awaited, `None` otherwise. */
    var pending: Option<seq<Request>>
    /** Whether the XFCE file-manager interface was obtained at the last probe. */
    var xfce: bool
    /** Whether the freedesktop file-manager interface was obtained at the last probe. */
    var fdo: bool
    /** Sensitivity of the "thunar" radio button. */
    var thunarSensitive: bool
    /** Sensitivity of the "freedesktop" radio button. */
    var freedesktopSensitive: bool
    /** Every remote call and debug notice so far, oldest first. */
    var trace: seq<Effect>

    /**
     * The freedesktop interface is only ever obtained together with the XFCE
     * one, and each radio button is sensitive exactly when its interface is present.
     */
    ghost predicate ProbeConsistent()
      reads this
    {
      (fdo ==> xfce) && thunarSensitive == xfce && freedesktopSensitive == fdo
    }

    /** The plugin object before `enable`. */
    constructor ()
      ensures ProbeConsistent()
      ensures openMethod == None && pending == None && !xfce && !fdo && trace == []
    {
      openMethod, pending := None, None;
      xfce, fdo := false, false;
      thunarSensitive, freedesktopSensitive := false, false;
      trace := [];
    }

    /**
     * `enable`: start an empty queue, ask for the configuration (its arrival
     * is `OnFirstConfig`) and probe the desktop interfaces. A method left
     * over from an earlier enable stays in place.
     */
    method Enable(xfceFound: bool, fdoFound: bool)
      modifies this
      ensures ProbeConsistent()
      ensures pending == Some([]) && openMethod == old(openMethod)
      ensures xfce == xfceFound && fdo == (xfceFound && fdoFound)
      ensures trace == old(trace) + (if xfceFound && fdoFound then [] else [ProbeFailureNotice])
    {
      pending := Some([]);
      GetDbus(xfceFound, fdoFound);
    }

    /**
     * `get_dbus`: reset both interfaces to absent, look up the XFCE one and
     * then, only if that succeeded, the freedesktop one; a failed lookup ends
     * the probe with a debug notice. `xfceFound` and `fdoFound` say whether
     * each lookup would succeed.
     */
    method GetDbus(xfceFound: bool, fdoFound: bool)
      modifies this`xfce, this`fdo, this`thunarSensitive, this`freedesktopSensitive, this`trace
      ensures ProbeConsistent()
      ensures xfce == xfceFound && fdo == (xfceFound && fdoFound)
      ensures trace == old(trace) + (if xfceFound && fdoFound then [] else [ProbeFailureNotice])
    {
      xfce, fdo := false, false;
      thunarSensitive, freedesktopSensitive := true, true;
      var raised := false;
      if xfceFound {
        xfce := true;
        if fdoFound {
          fdo := true;
        } else {
          raised := true;
        }
      } else {
        raised := true;
      }
      if raised {
        trace := trace + [ProbeFailureNotice];
      }
      if !fdo {
        freedesktopSensitive := false;
      }
      if !xfce {
        thunarSensitive := false;
      }
    }

    /**
     * `cb_first_pref_get`: record the configured method, dispatch every queued
     * request in arrival order and drop the queue, so that later requests are
     * no longer queued. Without a queue the iteration raises.
     */
    method OnFirstConfig(configured: string) returns (out: Outcome)
      modifies this`openMethod, this`pending, this`trace
      ensures openMethod == Some(configured) && pending == None
      ensures old(pending).None? ==> out == Raised(TypeError) && trace == old(trace)
      ensures old(pending).Some? ==> out == Completed && trace == old(trace) + ReplayEffects(configured, xfce, fdo, old(pending).value)
    {
      openMethod := Some(configured);
      if pending.None? {
        return Raised(TypeError);
      }
      ReplayQueue(pending.value);
      pending := None;
      out := Completed;
    }

    /** The `for` loop of `cb_first_pref_get`: dispatch each request of `queue` in turn. */
    method ReplayQueue(queue: seq<Request>)
      requires openMethod.Some?
      modifies this`trace
      ensures trace == old(trace) + ReplayEffects(openMethod.value, xfce, fdo, queue)
    {
      var m := openMethod.value;
      for i := 0 to |queue|
        invariant trace == old(trace) + ReplayEffects(m, xfce, fdo, queue[..i])
      {
        ghost var before := trace;
        var dispatched := DispatchOpen(queue[i]);
        assert trace == before + DispatchEffects(m, xfce, fdo, queue[i]);
        ReplayOneMore(m, xfce, fdo, queue, i);
      }
      assert queue[..|queue|] == queue;
    }

    /**
     * `dispatch_open`: hand the request to the strategy the configured method
     * and the available interfaces select. Before any method is known, reading
     * it raises.
     */
    method DispatchOpen(req: Request) returns (out: Outcome)
      modifies this`trace
      ensures openMethod.None? ==> out == Raised(AttributeError) && trace == old(trace)
      ensures openMethod.Some? ==> out == Completed && trace == old(trace) + DispatchEffects(openMethod.value, xfce, fdo, req)
    {
      if openMethod.None? {
        return Raised(AttributeError);
      }
      var m := openMethod.value;
      if m == "thunar" && xfce {
        ThunarOpen(req.folder, req.file);
      } else if m == "freedesktop" && fdo {
        FreedesktopOpen(req.folder, req.file);
      } else {
        if m != "deluge" {
          trace := trace + [FallbackNotice];
        }
        DelugeOpen(req.folder, req.file);
      }
      out := Completed;
    }

    /**
     * The status callback of `open_folder`: compute the request, queue it
     * while the queue exists, and dispatch it straight away in any case.
     * A torrent with no files yet (a magnet link before its metadata) makes
     * `how_to_open` raise before anything is queued or dispatched.
     */
    method OnTorrentStatus(savePath: string, files: seq<TorrentFile>) returns (out: Outcome)
      modifies this`pending, this`trace
      ensures files == [] ==> out == Raised(IndexError) && pending == old(pending) && trace == old(trace)
      ensures files != [] ==> pending == if old(pending).Some? then Some(old(pending).value + [HowToOpen(savePath, files)]) else None
      ensures files != [] && openMethod.None? ==> out == Raised(AttributeError) && trace == old(trace)
      ensures files != [] && openMethod.Some? ==> out == Completed && trace == old(trace) + DispatchEffects(openMethod.value, xfce, fdo, HowToOpen(savePath, files))
    {
      if files == [] {
        return Raised(IndexError);
      }
      var direction := HowToOpen(savePath, files);
      if pending.Some? {
        pending := Some(pending.value + [direction]);
      }
      out := DispatchOpen(direction);
    }

    /**
     * The status callback with the `else` it evidently lacks: a request is
     * either queued for the replay or dispatched, never both.
     */
    method OnTorrentStatusDeferred(savePath: string, files: seq<TorrentFile>) returns (out: Outcome)
      modifies this`pending, this`trace
      ensures files == [] ==> out == Raised(IndexError) && pending == old(pending) && trace == old(trace)
      ensures files != [] ==> pending == if old(pending).Some? then Some(old(pending).value + [HowToOpen(savePath, files)]) else None
      ensures files != [] && old(pending).Some? ==> out == Completed && trace == old(trace)
      ensures files != [] && old(pending).None? && openMethod.None? ==> out == Raised(AttributeError) && trace == old(trace)
      ensures files != [] && old(pending).None? && openMethod.Some? ==> out == Completed && trace == old(trace) + DispatchEffects(openMethod.value, xfce, fdo, HowToOpen(savePath, files))
    {
      if files == [] {
        return Raised(IndexError);
      }
      var direction := HowToOpen(savePath, files);
      if pending.Some? {
        pending := Some(pending.value + [direction]);
        out := Completed;
      } else {
        out := DispatchOpen(direction);
      }
    }

    /** `thunar_open`: one call on the XFCE interface. */
    method ThunarOpen(folder: string, file: Option<string>)
      requires xfce
      modifies this`trace
      ensures trace == old(trace) + [Remote(ThunarCall(folder, file))]
    {
      if !Selects(file) {
        trace := trace + [Remote(DisplayFolder(folder, "", ""))];
        return;
      }
      trace := trace + [Remote(DisplayFolderAndSelect(folder, file.value, "", ""))];
    }

    /** `freedesktop_open`: one call on the freedesktop interface. */
    method FreedesktopOpen(folder: string, file: Option<string>)
      requires fdo
      modifies this`trace
      ensures trace == old(trace) + [Remote(FreedesktopCall(folder, file))]
    {
      if !Selects(file) {
        trace := trace + [Remote(ShowFolders([folder], ""))];
        return;
      }
      trace := trace + [Remote(ShowItems([PosixPath.Join(folder, file.value)], ""))];
    }

    /** `deluge_open`: Deluge's own opener on the folder. */
    method DelugeOpen(folder: string, file: Option<string>)
      modifies this`trace
      ensures trace == old(trace) + [Remote(DelugeCall(folder, file))]
    {
      trace := trace + [Remote(OpenFile(folder))];
    }

    /**
     * `on_apply_prefs`: the name of the first active button of the radio group
     * becomes the open method and is sent as the configuration; with no active
     * button nothing is configured (the configuration sent is `None`).
     */
    method ApplyPrefs(group: seq<RadioButton>) returns (config: Option<string>)
      modifies this`openMethod
      ensures FirstActive(group).Some? ==> config == Some(group[FirstActive(group).value].name)
      ensures FirstActive(group).None? ==> config == None
      ensures openMethod == if config.Some? then config else old(openMethod)
    {
      config := None;
      var i := 0;
      while i < |group|
        invariant 0 <= i <= |group|
        invariant config == None && openMethod == old(openMethod)
        invariant forall j :: 0 <= j < i ==> !group[j].active
      {
        if group[i].active {
          config := Some(group[i].name);
          openMethod := config;
          break;
        }
        i := i + 1;
      }
    }

    /** `on_show_prefs`: probe the interfaces again. */
    method OnShowPrefs(xfceFound: bool, fdoFound: bool)
      modifies this`xfce, this`fdo, this`thunarSensitive, this`freedesktopSensitive, this`trace
      ensures ProbeConsistent()
      ensures xfce == xfceFound && fdo == (xfceFound && fdoFound)
      ensures trace == old(trace) + (if xfceFound && fdoFound then [] else [ProbeFailureNotice])
    {
      GetDbus(xfceFound, fdoFound);
    }
  }

  /** The three radio buttons of the preferences page, with only `chosen` active. */
  function Choice(chosen: string): (group: seq<RadioButton>)
    ensures |group| == 3
    ensures forall i :: 0 <= i < |group| ==> (group[i].active <==> group[i].name == chosen)
  {
    [RadioButton("thunar", chosen == "thunar"),
     RadioButton("freedesktop", chosen == "freedesktop"),
     RadioButton("deluge", chosen == "deluge")]
  }

  /**
   * The usual start-up race: a request that arrives before the configuration
   * raises when dispatched, and is opened once, by the replay.
   */
  method RequestBeforeFirstConfig(savePath: string, path: string) returns (first: Outcome, trace: seq<Effect>)
    requires path != ""
    ensures first == Raised(AttributeError)
    ensures trace == [Remote(DisplayFolderAndSelect(savePath, path, "", ""))]
  {
    var req := Request(savePath, Some(path));
    assert HowToOpen(savePath, [TorrentFile(path)]) == req;
    assert [] + [req] == [req];
    var ui := new GtkUI();
    ui.Enable(true, true);
    assert ui.trace == [] && ui.openMethod == None;
    first := ui.OnTorrentStatus(savePath, [TorrentFile(path)]);
    assert ui.pending == Some([req]) && ui.trace == [];
    var replayed := ui.OnFirstConfig("thunar");
    assert [req][..0] == [];
    trace := ui.trace;
  }

  /**
   * Preferences applied before the configuration arrives: the request is
   * dispatched on arrival and again by the replay, so the folder opens twice.
   */
  method ApplyBeforeFirstConfigOpensTwice(savePath: string, path: string) returns (trace: seq<Effect>)
    ensures trace == [ProbeFailureNotice, Remote(OpenFile(savePath)), Remote(OpenFile(savePath))]
  {
    var req := Request(savePath, Some(path));
    assert HowToOpen(savePath, [TorrentFile(path)]) == req;
    assert [] + [req] == [req];
    var open := Remote(OpenFile(savePath));
    DelugeOpensQuietly(req);
    var ui := new GtkUI();
    ui.Enable(false, false);
    var sent := ui.ApplyPrefs(Choice("deluge"));
    DelugeChoiceIsLast();
    assert ui.openMethod == Some("deluge") && ui.pending == Some([]) && ui.trace == [ProbeFailureNotice];
    var arrived := ui.OnTorrentStatus(savePath, [TorrentFile(path)]);
    assert ui.pending == Some([req]) && ui.trace == [ProbeFailureNotice, open];
    var replayed := ui.OnFirstConfig("deluge");
    trace := ui.trace;
  }

  /** The same sequence of events with the deferred callback opens the folder once. */
  method ApplyBeforeFirstConfigOpensOnce(savePath: string, path: string) returns (trace: seq<Effect>)
    ensures trace == [ProbeFailureNotice, Remote(OpenFile(savePath))]
  {
    var req := Request(savePath, Some(path));
    assert HowToOpen(savePath, [TorrentFile(path)]) == req;
    assert [] + [req] == [req];
    DelugeOpensQuietly(req);
    var ui := new GtkUI();
    ui.Enable(false, false);
    var sent := ui.ApplyPrefs(Choice("deluge"));
    DelugeChoiceIsLast();
    assert ui.openMethod == Some("deluge") && ui.pending == Some([]) && ui.trace == [ProbeFailureNotice];
    var arrived := ui.OnTorrentStatusDeferred(savePath, [TorrentFile(path)]);
    assert ui.pending == Some([req]) && ui.trace == [ProbeFailureNotice];
    var replayed := ui.OnFirstConfig("deluge");
    trace := ui.trace;
  }

  /** With "deluge" configured, a request and its one-element replay both open the folder silently. */
  lemma DelugeOpensQuietly(req: Request)
    ensures DispatchEffects("deluge", false, false, req) == [Remote(OpenFile(req.folder))]
    ensures ReplayEffects("deluge", false, false, [req]) == [Remote(OpenFile(req.folder))]
  {
    assert [req][..0] == [];
    FallbackNoticeExactly("deluge", false, false, req);
  }

  /** In the preferences group with "deluge" chosen, the first active button is the last one. */
  lemma DelugeChoiceIsLast()
    ensures FirstActive(Choice("deluge")) == Some(2)
  {
    var group := Choice("deluge");
    assert FirstActive(group[2..]) == Some(0);
    assert group[1..][1..] == group[2..];
    assert FirstActive(group[1..]) == Some(1);
  }
}
