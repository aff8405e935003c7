/**
 * The VCF checks (checks/vcf.py): the text-file check and the trailing-newline
 * warning, with the warnings returned as a value rather than logged.
 */
module VcfChecks {
  import opened Wrappers
  import opened Utils
  import opened ContentChecks
  import FastaChecks

  /** `check_if_text_file`: the same verdict, and the same message, as the FASTA check. */
  function CheckIfTextFile(isTextFile: bool): (v: Verdict)
    ensures v == Pass <==> isTextFile
    ensures v == FastaChecks.CheckIfTextFile(isTextFile)
  {
    if isTextFile then Pass else AssertionFailure(FastaChecks.NOT_TEXT_MESSAGE)
  }

  /** The one warning the newline check can raise. */
  function MissingNewlineWarning(filePath: string): RaisedWarning {
    DatacheckWarning(EnsemblDatacheckWarning(FastaChecks.MissingNewlineMessage(filePath), "vcf", "check_ends_with_newline"))
  }

  /**
   * `check_ends_with_newline`: the warnings raised. It never fails: the only
   * error is the OSError of the seek on an empty file.
   */
  function CheckEndsWithNewline(filePath: string, contents: seq<byte>): (r: Result<seq<RaisedWarning>>)
    ensures r.Err? <==> contents == []
    ensures r.Err? ==> r.error == OSError
    ensures r.Ok? ==> (r.value == [] <==> contents[|contents| - 1] == 0x0A)
    ensures r.Ok? ==> r.value == [] || r.value == [MissingNewlineWarning(filePath)]
  {
    match EndsWithNewline(contents)
    case Err(e) => Err(e)
    case Ok(ends) => if !ends then Ok([MissingNewlineWarning(filePath)]) else Ok([])
  }

  /** Appending a newline byte silences the check. */
  lemma NewlineSilences(filePath: string, contents: seq<byte>)
    ensures CheckEndsWithNewline(filePath, contents + [0x0A]) == Ok([])
  {
  }
}
