/** How the two admin pages differ in their file checks and their gates. */
module PageComparison {
  import opened Common
  import SuratValidation
  import SuratPage
  import IndexImage

  /** Both pages cap uploads at the same 5 MiB. */
  lemma SameSizeCeiling()
    ensures SuratValidation.MaxFileSize == IndexImage.MaxFileSize == 5242880
  {
  }

  /** For an oversized file that neither page accepts, the template form
      reports the size and the banner page reports the type. */
  lemma CheckOrdersDiffer(name: string, size: nat, mimeType: string)
    requires size > 5242880
    requires mimeType !in SuratValidation.AcceptedFileTypes && mimeType !in IndexImage.AcceptedTypes
    ensures SuratValidation.FileIssue(Some(SuratValidation.FileMeta(name, size, mimeType)))
            == Some(SuratValidation.FileTooLarge)
    ensures IndexImage.ValidateFile(IndexImage.ImageFile(name, size, mimeType)) == Some(IndexImage.NotAnImage)
  {
  }

  /** The template page renders for any signed-in user, the banner page only
      for an administrator; neither renders without a user. */
  lemma GatesDiffer(id: string)
    ensures SuratPage.Renders(Some(Principal(id, User))) && !IndexImage.Renders(Some(Principal(id, User)))
    ensures SuratPage.Renders(Some(Principal(id, Admin))) && IndexImage.Renders(Some(Principal(id, Admin)))
    ensures !SuratPage.Renders(None) && !IndexImage.Renders(None)
  {
  }
}
