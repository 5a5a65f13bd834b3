/** The homepage-banner admin page: its file check, the upload handler and
    the admin gate. As on the template page, each awaited call is one atomic
    step whose outcome is a parameter, and toasts and requests are recorded
    in `effects`. */
module IndexImage {
  import opened Common

  /** 5 MiB. */
  const MaxFileSize: nat := 5 * 1024 * 1024

  const AcceptedTypes: seq<string> := ["image/jpeg", "image/png", "image/webp"]

  /** The metadata of a chosen image file. */
  datatype ImageFile = ImageFile(name: string, size: nat, mimeType: string)

  datatype BannerIssue = NotAnImage | TooLarge

  /** The message returned for each issue. */
  function Message(issue: BannerIssue): string
  {
    match issue
    case NotAnImage => "File harus berupa gambar (JPG, PNG, atau WebP)"
    case TooLarge => "Ukuran file tidak boleh lebih dari 5MB"
  }

  /** `validateFile`: the type is checked first, then the size. */
  function ValidateFile(file: ImageFile): (r: Option<BannerIssue>)
    ensures r.None? <==> file.mimeType in AcceptedTypes && file.size <= MaxFileSize
    ensures file.mimeType !in AcceptedTypes ==> r == Some(NotAnImage)
    ensures r == Some(TooLarge) <==> file.mimeType in AcceptedTypes && file.size > MaxFileSize
  {
    if file.mimeType !in AcceptedTypes then Some(NotAnImage)
    else if file.size > MaxFileSize then Some(TooLarge)
    else None
  }

  /** An oversized file of the wrong type gets the type message here, the
      opposite of the template form, which reports its size. */
  lemma TypeCheckedBeforeSize(file: ImageFile)
    requires file.size > MaxFileSize && file.mimeType !in AcceptedTypes
    ensures ValidateFile(file) == Some(NotAnImage)
    ensures Message(ValidateFile(file).value) != Message(TooLarge)
  {
  }

  /** The banner resource as the store returns it. */
  datatype HeroBanner = HeroBanner(id: string, imageUrl: string)

  datatype Call = GetBanner | UpdateBanner(file: ImageFile)

  datatype Effect = Request(call: Call) | Notify(toast: Toast)

  /** The text stored in `error` after a failed call: the error's message if
      it is an `Error`, otherwise the fallback. */
  function ErrorText(message: Option<string>, fallback: string): (r: string)
    ensures message.Some? ==> r == message.value
    ensures message.None? ==> r == fallback
  {
    match message
    case Some(m) => m
    case None => fallback
  }

  const LoadFailedToast := Toast("Error", "Gagal memuat banner. Silakan coba lagi nanti.", true)
  const UploadedToast := Toast("Sukses", "Banner berhasil diperbarui", false)
  const UploadFailedToast := Toast("Error", "Gagal mengunggah banner. Silakan coba lagi nanti.", true)

  function IssueToast(issue: BannerIssue): Toast
  {
    Toast("Error", Message(issue), true)
  }

  /** The page renders only for a signed-in user whose role is ADMIN. */
  predicate Renders(user: Option<Principal>)
  {
    user.Some? && user.value.role == Admin
  }

  /** Only an administrator sees the page; a missing user or a USER sees nothing. */
  lemma RendersOnlyForAdmin(user: Option<Principal>)
    ensures Renders(user) <==> exists id :: user == Some(Principal(id, Admin))
  {
  }

  /** A snapshot of every state cell of the page. */
  datatype BannerState = BannerState(
    banner: Option<HeroBanner>,
    isLoading: bool,
    isUploading: bool,
    error: Option<string>,
    effects: seq<Effect>)

  class IndexImagePage {
    var banner: Option<HeroBanner>
    var isLoading: bool
    var isUploading: bool
    var error: Option<string>
    var effects: seq<Effect>

    ghost function State(): BannerState
      reads this
    {
      BannerState(banner, isLoading, isUploading, error, effects)
    }

    /** The initial state cells. */
    constructor ()
      ensures State() == BannerState(None, true, false, None, [])
    {
      banner := None;
      isLoading := true;
      isUploading := false;
      error := None;
      effects := [];
    }

    /** `fetchBanner`, run on mount: success shows the banner and clears the
        error; failure records the error text and raises a toast; loading
        ends either way. */
    method FetchBanner(reply: Reply<HeroBanner>)
      modifies this
      ensures State() == old(State()).(
        banner := if reply.Ok? then Some(reply.value) else old(banner),
        error := if reply.Ok? then None else Some(ErrorText(reply.message, "Gagal memuat banner")),
        isLoading := false,
        effects := old(effects) + [Request(GetBanner)] + if reply.Fail? then [Notify(LoadFailedToast)] else [])
    {
      effects := effects + [Request(GetBanner)];
      if reply.Ok? {
        banner := Some(reply.value);
        error := None;
      } else {
        error := Some(ErrorText(reply.message, "Gagal memuat banner"));
        effects := effects + [Notify(LoadFailedToast)];
      }
      isLoading := false;
    }

    /** `handleFileChange`: nothing without a file; a file that fails the
        check only raises a toast, with no upload; otherwise one upload, on
        success the banner is replaced and the error stays cleared, on
        failure the banner is kept and the error text is set. The uploading
        flag is raised while the upload is pending (`uploadingWhilePending`)
        and lowered afterwards. */
    method HandleFileChange(file: Option<ImageFile>, reply: Reply<HeroBanner>)
      returns (ghost uploadingWhilePending: bool)
      modifies this
      ensures file.None? ==> State() == old(State())
      ensures file.Some? && ValidateFile(file.value).Some? ==> State() == old(State()).(
        effects := old(effects) + [Notify(IssueToast(ValidateFile(file.value).value))])
      ensures file.Some? && ValidateFile(file.value).None? ==>
        uploadingWhilePending && State() == old(State()).(
          banner := if reply.Ok? then Some(reply.value) else old(banner),
          error := if reply.Ok? then None else Some(ErrorText(reply.message, "Gagal mengunggah banner")),
          isUploading := false,
          effects := old(effects) + [Request(UpdateBanner(file.value))]
                     + [Notify(if reply.Ok? then UploadedToast else UploadFailedToast)])
    {
      uploadingWhilePending := false;
      if file.None? {
        return;
      }
      var issue := ValidateFile(file.value);
      if issue.Some? {
        effects := effects + [Notify(IssueToast(issue.value))];
        return;
      }
      isUploading := true;
      error := None;
      effects := effects + [Request(UpdateBanner(file.value))];
      uploadingWhilePending := isUploading;
      if reply.Ok? {
        banner := Some(reply.value);
        effects := effects + [Notify(UploadedToast)];
      } else {
        error := Some(ErrorText(reply.message, "Gagal mengunggah banner"));
        effects := effects + [Notify(UploadFailedToast)];
      }
      isUploading := false;
    }
  }
}
