# Better Open Folder: a Dafny model of the open-folder dispatch

This project models the logic of the Deluge "Better Open Folder" GTK plugin
(`deluge/plugins/betteropenfolder/gtkui.py`). When the user asks to open a
torrent's folder, the plugin does the following:

1. It turns the torrent's save path and file list into an open request: a
   folder, plus the file to select when the torrent has a single file (`how_to_open`).
2. It picks one of three strategies (`dispatch_open`). The strategy depends on
   the configured open method (`thunar`, `freedesktop` or `deluge`) and on
   which desktop file-manager D-Bus interfaces were found. The strategies are:
   - the XFCE `org.xfce.FileManager` interface (`DisplayFolder` /
     `DisplayFolderAndSelect`);
   - the `org.freedesktop.FileManager1` interface (`ShowFolders` / `ShowItems`);
   - Deluge's own `open_file`.
3. Requests that arrive before the configured method has been fetched are
   queued. When the configuration arrives they are replayed in arrival order,
   and then the queue is dropped.

Modules:

- `PosixPath` (`posix_path.dfy`): the two path operations the plugin uses,
  `os.path.join` and `os.path.dirname`, with POSIX semantics. It also defines
  `basename`, which is the partner of `dirname` in the round-trip lemmas.
- `OpenRequest` (`open_request.dfy`): `how_to_open`.
- `Dispatch` (`dispatch.dfy`): the strategy choice and the single remote call
  each strategy makes. It also gives the effects of one dispatch (the call,
  preceded by the fallback debug notice when one is logged) and the effects of
  replaying a queue.
- `BetterOpenFolder` (`gtk_ui.dfy`): the plugin object as a class. Its fields
  are the open method, the pending queue, the two availability flags, the
  sensitivity of the two radio buttons and a trace of effects. Callbacks from
  Twisted and the event loop are method calls, made in the order the events
  are delivered. An exception raised inside a callback is the `Outcome`
  value `Raised(...)`.
- `Wrappers` (`wrappers.dfy`): `Option`, which models Python's `None`.

## Model

| member | source | states |
|---|---|---|
| `PosixPath.Join` | deluge/plugins/betteropenfolder/gtkui.py:141 | `os.path.join`: the second part is always a suffix of the result; an absolute second part replaces the first. Otherwise the first part is a prefix of the result, and exactly one separator is inserted when the first part is non-empty and does not already end with one; none is inserted otherwise |
| `PosixPath.Dirname` | deluge/plugins/betteropenfolder/gtkui.py:179 | `os.path.dirname`: the result is a prefix of the head that ends at the last separator; it is empty when the path has no separator; it does not end with a separator unless it consists only of separators. It is non-empty when the path has a separator, only separators are stripped from the head up to the last separator, and a head made only of separators is kept whole |
| `PosixPath.DirnameStripsDoubledSeparator` | deluge/plugins/betteropenfolder/gtkui.py:179 | `dirname("a//b")` is `"a"`: every separator before the base name is stripped, not just the last one |
| `PosixPath.DirnameDropsLastSeparator` | deluge/plugins/betteropenfolder/gtkui.py:179 | for a path without doubled separators whose last separator is past index 0 (so not `"x"` or `"/x"`), `dirname` removes exactly the last separator and what follows it, so the path is dirname + "/" + basename |
| `PosixPath.JoinDirnameBasename` | deluge/plugins/betteropenfolder/gtkui.py:179 | round trip: joining `dirname(p)` with `basename(p)` gives back `p` when `p` has no doubled separators |
| `PosixPath.JoinThroughDirname` | deluge/plugins/betteropenfolder/gtkui.py:179 | for a relative path `p` without doubled separators, `join(join(s, dirname(p)), basename(p)) == join(s, p)` |
| `OpenRequest.HowToOpen` | deluge/plugins/betteropenfolder/gtkui.py:175-179 | one file: the folder is the save path unchanged and that file's path is selected. Several files: no file is selected |
| `OpenRequest.HowToOpenReadsFirstFileOnly` | deluge/plugins/betteropenfolder/gtkui.py:176-179 | two file lists that share their first entry, and agree on whether that entry is the only one, give the same request |
| `OpenRequest.MultiFileFolderHoldsFirstFile` | deluge/plugins/betteropenfolder/gtkui.py:175-179 | for several files whose first file's path is relative and has no doubled separators, the requested folder is the directory that holds the first file: joined with that file's base name, it gives save path + file path |
| `Dispatch.Choose` | deluge/plugins/betteropenfolder/gtkui.py:109-117 | exactly one strategy is chosen. Thunar is chosen iff the method is "thunar" and XFCE is present. Freedesktop is chosen iff the method is "freedesktop" and its interface is present. Deluge's opener is chosen in every other case |
| `Dispatch.ThunarCall` | deluge/plugins/betteropenfolder/gtkui.py:129-132 | always on the folder with empty display and startup id. `DisplayFolderAndSelect` with the file is used iff the file is present and non-empty; otherwise `DisplayFolder` is used. Never both |
| `Dispatch.FreedesktopCall` | deluge/plugins/betteropenfolder/gtkui.py:138-141 | always a one-element list with an empty startup id. `ShowItems([join(folder, file)])` is used iff the file is present and non-empty; otherwise `ShowFolders([folder])` |
| `Dispatch.DelugeCall` | deluge/plugins/betteropenfolder/gtkui.py:134-136 | opens the folder and nothing else; the file argument plays no part |
| `Dispatch.DispatchMakesOneCall` | deluge/plugins/betteropenfolder/gtkui.py:109-117 | a dispatch makes exactly one remote call. It carries the fallback notice iff the fallback is logged, and never a probe notice |
| `Dispatch.DispatchCallStrategy` | deluge/plugins/betteropenfolder/gtkui.py:109-117 | the kind of call identifies the strategy, in both directions. An XFCE call happens iff thunar is configured and present. A freedesktop call happens iff freedesktop is configured and present. Otherwise the call is `open_file` on the request's folder |
| `Dispatch.FallbackNoticeExactly` | deluge/plugins/betteropenfolder/gtkui.py:114-117 | the fallback notice is emitted iff Deluge's opener is reached and the method is not "deluge". Choosing "deluge" opens the folder silently |
| `Dispatch.UnavailableInterfaceFallsBack` | deluge/plugins/betteropenfolder/gtkui.py:110-117 | when the configured interface is absent, the effects are the fallback notice followed by `open_file` on the folder, whatever the request |
| `Dispatch.MultiFileNeverSelects` | deluge/plugins/betteropenfolder/gtkui.py:177-179 | the request of a multi-file torrent never leads to `DisplayFolderAndSelect` or `ShowItems` |
| `Dispatch.ReplayCallsInOrder` | deluge/plugins/betteropenfolder/gtkui.py:105-106 | replaying a queue makes exactly one remote call per queued request, and the i-th call is the dispatch of the i-th request |
| `BetterOpenFolder.FirstActive` | deluge/plugins/betteropenfolder/gtkui.py:157-164 | returns the index of an active button such that every earlier button is inactive, or nothing when no button is active |
| `BetterOpenFolder.GtkUI.Enable` | deluge/plugins/betteropenfolder/gtkui.py:58-79 | the queue becomes empty, the open method is kept, and the interfaces are probed (see `GetDbus`) |
| `BetterOpenFolder.GtkUI.GetDbus` | deluge/plugins/betteropenfolder/gtkui.py:81-101 | XFCE is present iff its lookup succeeds. Freedesktop is present iff both lookups succeed, so freedesktop implies XFCE. Each radio button is sensitive iff its interface is present. A failed lookup adds one probe notice |
| `BetterOpenFolder.GtkUI.OnFirstConfig` | deluge/plugins/betteropenfolder/gtkui.py:103-107 | sets the open method, appends the replay of the queued requests in arrival order (for loop), and drops the queue. Without a queue it raises `TypeError` after setting the method |
| `BetterOpenFolder.GtkUI.ReplayQueue` | deluge/plugins/betteropenfolder/gtkui.py:105-106 | the for loop over the queue appends exactly the replay effects of the queue, one dispatch per request in order |
| `BetterOpenFolder.GtkUI.DispatchOpen` | deluge/plugins/betteropenfolder/gtkui.py:109-117 | before any method is known it raises `AttributeError` and adds nothing; otherwise it appends the dispatch effects of the request |
| `BetterOpenFolder.GtkUI.OnTorrentStatus` | deluge/plugins/betteropenfolder/gtkui.py:120-124 | as written: an empty file list raises `IndexError` and changes nothing. Otherwise the request is appended to the queue while the queue exists, and it is dispatched immediately in every case. That dispatch raises `AttributeError` before the method is known. Once the queue is dropped, nothing more is queued |
| `BetterOpenFolder.GtkUI.OnTorrentStatusDeferred` | deluge/plugins/betteropenfolder/gtkui.py:120-124 | corrected callback: an empty file list raises `IndexError` and changes nothing. Otherwise a request is queued and not dispatched while the queue exists; otherwise it is dispatched |
| `BetterOpenFolder.GtkUI.ThunarOpen` | deluge/plugins/betteropenfolder/gtkui.py:129-132 | appends exactly the one XFCE call of `ThunarCall` |
| `BetterOpenFolder.GtkUI.FreedesktopOpen` | deluge/plugins/betteropenfolder/gtkui.py:138-141 | appends exactly the one freedesktop call of `FreedesktopCall` |
| `BetterOpenFolder.GtkUI.DelugeOpen` | deluge/plugins/betteropenfolder/gtkui.py:134-136 | appends exactly `open_file` on the folder |
| `BetterOpenFolder.GtkUI.ApplyPrefs` | deluge/plugins/betteropenfolder/gtkui.py:153-165 | the name of the first active radio button becomes the open method and is the configuration sent. With no active button, `None` is sent and the method is unchanged |
| `BetterOpenFolder.GtkUI.OnShowPrefs` | deluge/plugins/betteropenfolder/gtkui.py:167-169 | re-probes the interfaces, with the same guarantees as `GetDbus` |
| `BetterOpenFolder.RequestBeforeFirstConfig` | deluge/plugins/betteropenfolder/gtkui.py:103-124 | scenario with both interfaces present and "thunar" configured. A single-file request that arrives before the configuration raises `AttributeError` on arrival. The whole trace is then one `DisplayFolderAndSelect`, made by the replay |
| `BetterOpenFolder.ApplyBeforeFirstConfigOpensTwice` | deluge/plugins/betteropenfolder/gtkui.py:120-124 | scenario with no interface present. If preferences are applied ("deluge") before the configuration arrives, the whole trace is the probe notice and then two `open_file` calls for the same folder |
| `BetterOpenFolder.ApplyBeforeFirstConfigOpensOnce` | deluge/plugins/betteropenfolder/gtkui.py:120-124 | the same events with the deferred callback give the probe notice and then one `open_file` call |

Two behaviours of the code that a reader might not expect, both modelled as written:

- The fallback debug notice is logged whenever `deluge_open` is reached with a
  method other than "deluge" (gtkui.py:114-117). That covers an unavailable
  interface and also an unrecognised method string.
- A request that arrives while the queue exists is appended to it and is also
  dispatched at once (gtkui.py:122-124). The comment on the queue at
  gtkui.py:76 ("opens before config is obtained") shows that the queue is
  meant to hold those requests until the configuration arrives (see Findings).

## Left out

- GTK widgets: the preferences page, hook registration, and the menu handler's block, connect and disconnect in `enable` and `disable`. These are toolkit wiring, so `disable` is not modelled.
- `cb_pref_get_config`, which marks the radio button named by the stored method as active. It is widget state only.
- The D-Bus session bus, `get_object` and `dbus.Interface`. Their outcomes are the inputs `xfceFound` and `fdoFound`. A failure to reach the session bus counts as a failed XFCE lookup.
- Failures of the D-Bus calls themselves inside `thunar_open` and `freedesktop_open`. They are foreign calls.
- The RPC calls `get_config`, `set_config` and `get_torrent_status`, and the loop over selected torrents in `open_folder`. They are asynchronous foreign calls. Their results arrive as calls to `OnFirstConfig`, `OnTorrentStatus` and the value returned by `ApplyPrefs`, in whatever order the event loop delivers them.
- `gtk.get_current_event_time` and the timestamp passed to `open_file`.
- The configuration dictionary itself: `OnFirstConfig` receives the `open_method` value directly, so a dictionary without that key is not modelled.
- Logging, apart from the fallback notice and the probe-failure notice in the trace.
- OpenRequest.HowToOpen: the pure function requires a non-empty file list, because `files[0]` raises `IndexError` on an empty one (gtkui.py:176). That error path is modelled one level up: `OnTorrentStatus` and `OnTorrentStatusDeferred` accept any file list and return `Raised(IndexError)` with the queue and the trace unchanged when it is empty, as for a magnet torrent whose metadata has not arrived.

## Findings

| source | as written | input that shows it | evidently intended | confidence | as-written member | corrected member |
|---|---|---|---|---|---|---|
| deluge/plugins/betteropenfolder/gtkui.py:122-124 | the status callback queues the request while the queue exists and then dispatches it anyway, because there is no `else` | enable the plugin; apply preferences with "deluge" before the first configuration arrives; request a folder; the configuration arrives. Result: `open_file` on the same folder twice. Without the apply step, the immediate dispatch raises `AttributeError` | a queued request is dispatched only by the replay | not executed; high | `BetterOpenFolder.ApplyBeforeFirstConfigOpensTwice` | `BetterOpenFolder.ApplyBeforeFirstConfigOpensOnce` |
