/**
 * The EnsemblDatacheckWarning record (functions/utils.py) and the warnings a
 * check raises while it runs, as the warnings machinery records them.
 */
module Utils {
  import opened Wrappers
  import opened Strings

  /** The three constructor arguments, stored verbatim and never changed. */
  datatype EnsemblDatacheckWarning = EnsemblDatacheckWarning(message: string, fileName: string, functionName: string)

  /** What `__str__` puts before the message. */
  function StrPrefix(fileName: string, functionName: string): string {
    "Warning::" + fileName + "::" + functionName + ": "
  }

  /** `str(w)`: the origin tag, then the message unchanged. */
  function Str(w: EnsemblDatacheckWarning): (r: string)
    ensures StartsWith(r, StrPrefix(w.fileName, w.functionName))
    ensures r[|StrPrefix(w.fileName, w.functionName)|..] == w.message
  {
    "Warning::" + w.fileName + "::" + w.functionName + ": " + w.message
  }

  /** Reads the message back out of a rendered warning with a known origin tag. */
  function MessageOf(rendered: string, fileName: string, functionName: string): Option<string> {
    var prefix := StrPrefix(fileName, functionName);
    if StartsWith(rendered, prefix) then Some(rendered[|prefix|..]) else None
  }

  lemma StrRoundTrip(w: EnsemblDatacheckWarning)
    ensures MessageOf(Str(w), w.fileName, w.functionName) == Some(w.message)
  {
  }

  /** For one origin tag, distinct messages render as distinct strings. */
  lemma StrInjective(w1: EnsemblDatacheckWarning, w2: EnsemblDatacheckWarning)
    requires w1.fileName == w2.fileName && w1.functionName == w2.functionName
    requires w1.message != w2.message
    ensures Str(w1) != Str(w2)
  {
    StrRoundTrip(w1);
    StrRoundTrip(w2);
  }

  /**
   * A warning recorded while a check ran: either an EnsemblDatacheckWarning
   * instance, or a warning of some other category built from a plain text
   * (`warnings.warn(text, UserWarning)` gives category "UserWarning").
   */
  datatype RaisedWarning =
    | DatacheckWarning(w: EnsemblDatacheckWarning)
    | PlainWarning(category: string, text: string)

  /** `str(record.message)`: what the summaries print for a recorded warning. */
  function MessageText(r: RaisedWarning): string {
    match r
    case DatacheckWarning(w) => Str(w)
    case PlainWarning(_, text) => text
  }

  /** The class a recorded warning belongs to, as `custom_warning_format` tests it. */
  datatype WarningCategory = EnsemblDatacheckWarningClass | OtherCategory(name: string)

  function CategoryOf(r: RaisedWarning): WarningCategory {
    match r
    case DatacheckWarning(_) => EnsemblDatacheckWarningClass
    case PlainWarning(category, _) => OtherCategory(category)
  }
}
