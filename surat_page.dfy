/** The document-template admin page: its state cells and the handlers that
    update them. Each awaited remote call is one atomic step whose outcome
    is a parameter; toasts, opened tabs and remote requests are recorded, in
    order, in `effects`. */
module SuratPage {
  import opened Common
  import opened SuratValidation
  import opened SuratList

  /** The remote calls the page makes. */
  datatype Call =
    | ListFormats
    | UploadFormat(nama: string, file: FileMeta)
    | DeleteFormat(id: string)
    | TrackDownload(id: string)
    | GetStats(id: string)

  /** What the page does outside its own state. */
  datatype Effect = Request(call: Call) | Notify(toast: Toast) | OpenTab(url: string)

  /** A generic failure text with the error's message appended when there is one. */
  function WithReason(base: string, message: Option<string>): (r: string)
    ensures base <= r
    ensures message.None? <==> r == base
    ensures message.Some? ==> |r| == |base| + 2 + |message.value| &&
                              r[|base|..|base| + 2] == ": " && r[|base| + 2..] == message.value
  {
    match message
    case None => base
    case Some(m) => base + ": " + m
  }

  function LoadFailedToast(message: Option<string>): Toast
  {
    Toast("Gagal memuat data", WithReason("Tidak dapat memuat daftar format surat", message), true)
  }

  function StatsFailedToast(message: Option<string>): Toast
  {
    Toast("Gagal memuat statistik", WithReason("Tidak dapat memuat statistik unduhan", message), true)
  }

  const UploadedToast := Toast("Berhasil!", "Format surat telah berhasil diunggah", false)
  const UploadFailedToast := Toast("Gagal mengunggah", "Terjadi kesalahan saat mengunggah format surat", true)
  const DeletedToast := Toast("Berhasil", "Format surat telah dihapus", false)
  const DeleteFailedToast := Toast("Gagal menghapus", "Terjadi kesalahan saat menghapus format surat", true)

  /** What one refresh of the list does outside the state. */
  function RefreshEffects(reply: Reply<seq<FormatSurat>>): seq<Effect>
  {
    [Request(ListFormats)] + if reply.Fail? then [Notify(LoadFailedToast(reply.message))] else []
  }

  /** What one statistics fetch does outside the state. */
  function StatsEffects(id: string, reply: Reply<Option<seq<DownloadStats>>>): seq<Effect>
  {
    [Request(GetStats(id))] + if reply.Fail? then [Notify(StatsFailedToast(reply.message))] else []
  }

  /** The URLs opened in new tabs, in order. */
  function OpenedUrls(es: seq<Effect>): seq<string>
  {
    if es == [] then []
    else (if es[0].OpenTab? then [es[0].url] else []) + OpenedUrls(es[1..])
  }

  lemma {:induction false} OpenedUrlsAppend(a: seq<Effect>, b: seq<Effect>)
    ensures OpenedUrls(a + b) == OpenedUrls(a) + OpenedUrls(b)
  {
    if a == [] {
      assert a + b == b;
    } else {
      assert (a + b)[0] == a[0] && (a + b)[1..] == a[1..] + b;
      OpenedUrlsAppend(a[1..], b);
    }
  }

  /** A statistics fetch opens no tab. */
  lemma StatsEffectsOpenNothing(id: string, reply: Reply<Option<seq<DownloadStats>>>)
    ensures OpenedUrls(StatsEffects(id, reply)) == []
  {
    var es := StatsEffects(id, reply);
    assert !es[0].OpenTab?;
    if reply.Fail? {
      assert !es[1..][0].OpenTab? && es[1..][1..] == [];
      assert OpenedUrls(es[1..]) == OpenedUrls(es[1..][1..]) == [];
    } else {
      assert es[1..] == [];
    }
  }

  /** The page renders only for a signed-in user (any role). */
  predicate Renders(user: Option<Principal>)
  {
    user.Some?
  }

  /** A snapshot of every state cell of the page. */
  datatype PageState = PageState(
    formatSurat: seq<FormatSurat>,
    filteredFormat: seq<FormatSurat>,
    isLoading: bool,
    searchQuery: string,
    selectedFile: Option<FileMeta>,
    deletingId: Option<string>,
    selectedFormatId: Option<string>,
    downloadStats: seq<DownloadStats>,
    loadingStats: bool,
    form: FormValues,
    effects: seq<Effect>)

  class AdminSuratPage {
    var formatSurat: seq<FormatSurat>
    var filteredFormat: seq<FormatSurat>
    var isLoading: bool
    var searchQuery: string
    var selectedFile: Option<FileMeta>
    var deletingId: Option<string>
    var selectedFormatId: Option<string>
    var downloadStats: seq<DownloadStats>
    var loadingStats: bool
    var form: FormValues
    var effects: seq<Effect>

    ghost function State(): PageState
      reads this
    {
      PageState(formatSurat, filteredFormat, isLoading, searchQuery, selectedFile, deletingId,
                selectedFormatId, downloadStats, loadingStats, form, effects)
    }

    /** The filtered view is the filter of the list by the query, as the
        filter effect leaves it after each render. */
    ghost predicate FilterSettled()
      reads this
    {
      filteredFormat == Filter(formatSurat, searchQuery)
    }

    /** The initial state cells and form defaults. */
    constructor ()
      ensures State() == PageState([], [], true, "", None, None, None, [], false, EmptyForm, [])
      ensures FilterSettled()
    {
      formatSurat := [];
      filteredFormat := [];
      isLoading := true;
      searchQuery := "";
      selectedFile := None;
      deletingId := None;
      selectedFormatId := None;
      downloadStats := [];
      loadingStats := false;
      form := EmptyForm;
      effects := [];
    }

    /** `fetchFormatSurat`: on success both the list and the view become the
        returned list; on failure both are kept and a toast is raised; in
        either case loading ends. It never fails to its caller. */
    method FetchFormatSurat(reply: Reply<seq<FormatSurat>>)
      modifies this
      ensures State() == old(State()).(
        formatSurat := if reply.Ok? then reply.value else old(formatSurat),
        filteredFormat := if reply.Ok? then reply.value else old(filteredFormat),
        isLoading := false,
        effects := old(effects) + RefreshEffects(reply))
      ensures reply.Ok? && searchQuery == "" ==> FilterSettled()
    {
      effects := effects + [Request(ListFormats)];
      if reply.Ok? {
        formatSurat := reply.value;
        filteredFormat := reply.value;
        FilterEmptyQuery(reply.value);
      } else {
        effects := effects + [Notify(LoadFailedToast(reply.message))];
      }
      isLoading := false;
    }

    /** The mount effect: the list is loaded once a user is known. */
    method Mount(user: Option<Principal>, reply: Reply<seq<FormatSurat>>)
      modifies this
      ensures user.None? ==> State() == old(State())
      ensures user.Some? ==> State() == old(State()).(
        formatSurat := if reply.Ok? then reply.value else old(formatSurat),
        filteredFormat := if reply.Ok? then reply.value else old(filteredFormat),
        isLoading := false,
        effects := old(effects) + RefreshEffects(reply))
    {
      if user.Some? {
        FetchFormatSurat(reply);
      }
    }

    /** The filter effect, run whenever the list or the query changes. */
    method ApplyFilter()
      modifies this
      ensures FilterSettled()
      ensures State() == old(State()).(filteredFormat := Filter(old(formatSurat), old(searchQuery)))
    {
      filteredFormat := Filter(formatSurat, searchQuery);
    }

    /** Typing in the search box, followed by the filter effect. */
    method SetSearchQuery(query: string)
      modifies this
      ensures FilterSettled()
      ensures State() == old(State()).(searchQuery := query, filteredFormat := Filter(old(formatSurat), query))
    {
      searchQuery := query;
      ApplyFilter();
    }

    /** Typing in the name field. */
    method EditName(nama: string)
      modifies this
      ensures State() == old(State()).(form := old(form).(nama := nama))
    {
      form := form.(nama := nama);
    }

    /** Choosing files: the form field takes the selection; the selected-file
        display changes only when a file was chosen. */
    method ChooseFile(file: Option<FileMeta>)
      modifies this
      ensures State() == old(State()).(
        form := old(form).(file := file),
        selectedFile := if file.Some? then file else old(selectedFile))
    {
      form := form.(file := file);
      if file.Some? {
        selectedFile := file;
      }
    }

    /** `onSubmit`: nothing without a file; otherwise one upload request; on
        success the list is refreshed (whatever the refresh's outcome), the
        form and the selected file are cleared; on failure only a toast. */
    method OnSubmit(data: FormValues, upload: Reply<()>, list: Reply<seq<FormatSurat>>)
      modifies this
      ensures data.file.None? ==> State() == old(State())
      ensures data.file.Some? && upload.Fail? ==> State() == old(State()).(
        effects := old(effects) + [Request(UploadFormat(data.nama, data.file.value)), Notify(UploadFailedToast)])
      ensures data.file.Some? && upload.Ok? ==> State() == old(State()).(
        formatSurat := if list.Ok? then list.value else old(formatSurat),
        filteredFormat := if list.Ok? then list.value else old(filteredFormat),
        isLoading := false,
        selectedFile := None,
        form := EmptyForm,
        effects := old(effects) + [Request(UploadFormat(data.nama, data.file.value))]
                   + RefreshEffects(list) + [Notify(UploadedToast)])
    {
      if data.file.None? {
        return;
      }
      effects := effects + [Request(UploadFormat(data.nama, data.file.value))];
      if upload.Ok? {
        FetchFormatSurat(list);
        form := EmptyForm;
        selectedFile := None;
        effects := effects + [Notify(UploadedToast)];
      } else {
        effects := effects + [Notify(UploadFailedToast)];
      }
    }

    /** Submitting the form: the schema runs first and `onSubmit` only when it
        reports no issue, so an invalid form never reaches the store. */
    method SubmitForm(upload: Reply<()>, list: Reply<seq<FormatSurat>>) returns (issues: seq<Issue>)
      modifies this
      ensures issues == Validate(old(form))
      ensures issues != [] ==> State() == old(State())
      ensures issues == [] ==> old(form).file.Some?
      ensures issues == [] && upload.Fail? ==> State() == old(State()).(
        effects := old(effects) + [Request(UploadFormat(old(form).nama, old(form).file.value)), Notify(UploadFailedToast)])
      ensures issues == [] && upload.Ok? ==> State() == old(State()).(
        formatSurat := if list.Ok? then list.value else old(formatSurat),
        filteredFormat := if list.Ok? then list.value else old(filteredFormat),
        isLoading := false,
        selectedFile := None,
        form := EmptyForm,
        effects := old(effects) + [Request(UploadFormat(old(form).nama, old(form).file.value))]
                   + RefreshEffects(list) + [Notify(UploadedToast)])
    {
      issues := Validate(form);
      if issues == [] {
        OnSubmit(form, upload, list);
      }
    }

    /** `handleDelete` up to its first await: the row is marked as deleting
        and the request is sent. */
    method StartDelete(id: string)
      modifies this
      ensures State() == old(State()).(deletingId := Some(id), effects := old(effects) + [Request(DeleteFormat(id))])
    {
      deletingId := Some(id);
      effects := effects + [Request(DeleteFormat(id))];
    }

    /** `handleDelete` after the deletion settles: on success the list is
        refreshed and an analytics panel showing `id` is cleared; on failure
        only a toast; the deleting mark is cleared in both cases. */
    method FinishDelete(id: string, reply: Reply<()>, list: Reply<seq<FormatSurat>>)
      modifies this
      ensures reply.Fail? ==> State() == old(State()).(
        deletingId := None,
        effects := old(effects) + [Notify(DeleteFailedToast)])
      ensures reply.Ok? ==> State() == old(State()).(
        formatSurat := if list.Ok? then list.value else old(formatSurat),
        filteredFormat := if list.Ok? then list.value else old(filteredFormat),
        isLoading := false,
        selectedFormatId := if old(selectedFormatId) == Some(id) then None else old(selectedFormatId),
        downloadStats := if old(selectedFormatId) == Some(id) then [] else old(downloadStats),
        deletingId := None,
        effects := old(effects) + RefreshEffects(list) + [Notify(DeletedToast)])
    {
      if reply.Ok? {
        FetchFormatSurat(list);
        if selectedFormatId == Some(id) {
          selectedFormatId := None;
          downloadStats := [];
        }
        effects := effects + [Notify(DeletedToast)];
      } else {
        effects := effects + [Notify(DeleteFailedToast)];
      }
      deletingId := None;
    }

    /** `handleDelete`. `pendingId` is the deleting mark while the request is
        in flight. */
    method HandleDelete(id: string, reply: Reply<()>, list: Reply<seq<FormatSurat>>)
      returns (ghost pendingId: Option<string>)
      modifies this
      ensures pendingId == Some(id) && deletingId == None
      ensures reply.Fail? ==> State() == old(State()).(
        deletingId := None,
        effects := old(effects) + [Request(DeleteFormat(id)), Notify(DeleteFailedToast)])
      ensures reply.Ok? ==> State() == old(State()).(
        formatSurat := if list.Ok? then list.value else old(formatSurat),
        filteredFormat := if list.Ok? then list.value else old(filteredFormat),
        isLoading := false,
        selectedFormatId := if old(selectedFormatId) == Some(id) then None else old(selectedFormatId),
        downloadStats := if old(selectedFormatId) == Some(id) then [] else old(downloadStats),
        deletingId := None,
        effects := old(effects) + [Request(DeleteFormat(id))] + RefreshEffects(list) + [Notify(DeletedToast)])
    {
      StartDelete(id);
      pendingId := deletingId;
      FinishDelete(id, reply, list);
    }

    /** `fetchDownloadStats` up to its await. */
    method StartStats(id: string)
      modifies this
      ensures State() == old(State()).(loadingStats := true, effects := old(effects) + [Request(GetStats(id))])
    {
      loadingStats := true;
      effects := effects + [Request(GetStats(id))];
    }

    /** `fetchDownloadStats` after the fetch settles: a result is stored
        normalised (an empty or missing one becomes a single synthetic point
        from the loaded list); a failure keeps the series and raises a toast;
        loading ends in both cases. */
    method FinishStats(id: string, reply: Reply<Option<seq<DownloadStats>>>, month: string, year: int)
      modifies this
      ensures State() == old(State()).(
        downloadStats := if reply.Ok? then NormalizeStats(reply.value, old(formatSurat), id, month, year)
                         else old(downloadStats),
        loadingStats := false,
        effects := old(effects) + if reply.Fail? then [Notify(StatsFailedToast(reply.message))] else [])
    {
      if reply.Ok? {
        downloadStats := NormalizeStats(reply.value, formatSurat, id, month, year);
      } else {
        effects := effects + [Notify(StatsFailedToast(reply.message))];
      }
      loadingStats := false;
    }

    /** `fetchDownloadStats`; `loadingWhilePending` is the loading flag while
        the request is in flight. `month` and `year` are the current date's. */
    method FetchDownloadStats(id: string, reply: Reply<Option<seq<DownloadStats>>>, month: string, year: int)
      returns (ghost loadingWhilePending: bool)
      modifies this
      ensures loadingWhilePending && !loadingStats
      ensures State() == old(State()).(
        downloadStats := if reply.Ok? then NormalizeStats(reply.value, old(formatSurat), id, month, year)
                         else old(downloadStats),
        loadingStats := false,
        effects := old(effects) + StatsEffects(id, reply))
    {
      StartStats(id);
      loadingWhilePending := loadingStats;
      FinishStats(id, reply, month, year);
    }

    /** `handleShowStats`: the template is selected before its statistics are
        fetched; `selectedWhilePending` is the selection during the fetch. */
    method HandleShowStats(id: string, reply: Reply<Option<seq<DownloadStats>>>, month: string, year: int)
      returns (ghost selectedWhilePending: Option<string>)
      modifies this
      ensures selectedWhilePending == Some(id)
      ensures State() == old(State()).(
        selectedFormatId := Some(id),
        downloadStats := if reply.Ok? then NormalizeStats(reply.value, old(formatSurat), id, month, year)
                         else old(downloadStats),
        loadingStats := false,
        effects := old(effects) + StatsEffects(id, reply))
    {
      selectedFormatId := Some(id);
      selectedWhilePending := selectedFormatId;
      ghost var _ := FetchDownloadStats(id, reply, month, year);
    }

    /** `handleDownload`: the download is tracked, the file's URL is opened
        exactly once whether tracking succeeded or not, and the statistics
        are fetched again only when tracking succeeded and the template is
        the one whose statistics are shown. */
    method HandleDownload(format: FormatSurat, track: Reply<()>, stats: Reply<Option<seq<DownloadStats>>>,
                          month: string, year: int)
      modifies this
      ensures old(effects) <= effects
      ensures OpenedUrls(effects) == OpenedUrls(old(effects)) + [format.downloadUrl]
      ensures Request(GetStats(format.id)) in effects[|old(effects)|..] <==>
        track.Ok? && old(selectedFormatId) == Some(format.id)
      ensures var refresh := track.Ok? && old(selectedFormatId) == Some(format.id);
        State() == old(State()).(
          downloadStats := if refresh && stats.Ok?
                           then NormalizeStats(stats.value, old(formatSurat), format.id, month, year)
                           else old(downloadStats),
          loadingStats := if refresh then false else old(loadingStats),
          effects := old(effects) + [Request(TrackDownload(format.id)), OpenTab(format.downloadUrl)]
                     + if refresh then StatsEffects(format.id, stats) else [])
    {
      effects := effects + [Request(TrackDownload(format.id))];
      if track.Ok? {
        effects := effects + [OpenTab(format.downloadUrl)];
        if selectedFormatId == Some(format.id) {
          ghost var _ := FetchDownloadStats(format.id, stats, month, year);
        }
      } else {
        effects := effects + [OpenTab(format.downloadUrl)];
      }
      ghost var added := [Request(TrackDownload(format.id)), OpenTab(format.downloadUrl)];
      ghost var tail := if track.Ok? && old(selectedFormatId) == Some(format.id) then StatsEffects(format.id, stats) else [];
      assert effects == old(effects) + added + tail;
      assert effects[|old(effects)|..] == added + tail;
      OpenedUrlsAppend(old(effects) + added, tail);
      OpenedUrlsAppend(old(effects), added);
      StatsEffectsOpenNothing(format.id, stats);
      assert OpenedUrls(added) == [format.downloadUrl] by {
        assert added[0].OpenTab? == false && added[1..][0].OpenTab?;
        assert added[1..][1..] == [];
        assert OpenedUrls(added[1..][1..]) == [];
        assert OpenedUrls(added[1..]) == [format.downloadUrl];
      }
    }
  }

  /** Uploading a valid 1 MB PDF named "Surat Domisili" puts the store's new
      template into the list. */
  method UploadScenario() returns (issues: seq<Issue>, list: seq<FormatSurat>)
    ensures issues == [] && list == [FormatSurat("t1", "Surat Domisili", "https://files/t1", 0)]
  {
    var page := new AdminSuratPage();
    page.EditName("Surat Domisili");
    page.ChooseFile(Some(FileMeta("domisili.pdf", 1000000, "application/pdf")));
    var t1 := FormatSurat("t1", "Surat Domisili", "https://files/t1", 0);
    issues := page.SubmitForm(Ok(()), Ok([t1]));
    list := page.formatSurat;
  }

  /** A 6 MB PDF is refused with the size message and the store is never called. */
  method OversizedScenario() returns (issues: seq<Issue>, calls: seq<Effect>)
    ensures issues == [FileTooLarge] && calls == []
  {
    var page := new AdminSuratPage();
    page.EditName("Surat Domisili");
    page.ChooseFile(Some(FileMeta("besar.pdf", 6000000, "application/pdf")));
    issues := page.SubmitForm(Ok(()), Ok([]));
    calls := page.effects;
  }

  /** Deleting the template whose statistics are shown clears the panel. */
  method DeleteSelectedScenario() returns (selected: Option<string>, stats: seq<DownloadStats>, deleting: Option<string>)
    ensures selected == None && stats == [] && deleting == None
  {
    var page := new AdminSuratPage();
    var t1 := FormatSurat("t1", "Surat Domisili", "https://files/t1", 7);
    page.Mount(Some(Principal("u1", Admin)), Ok([t1]));
    ghost var _ := page.HandleShowStats("t1", Ok(Some([])), "March", 2024);
    assert page.downloadStats == [DownloadStats("March", 2024, 7)];
    ghost var _ := page.HandleDelete("t1", Ok(()), Ok([]));
    selected, stats, deleting := page.selectedFormatId, page.downloadStats, page.deletingId;
  }
}
