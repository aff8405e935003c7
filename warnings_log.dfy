/**
 * The warnings raised while one check runs. The hook that runs a check wraps it
 * in `warnings.catch_warnings(record=True)`, so every `warnings.warn` call
 * appends one record to a list, in call order.
 */
module WarningsLog {
  import opened Utils

  class WarningLog {
    var records: seq<RaisedWarning>

    constructor ()
      ensures records == []
    {
      records := [];
    }

    /** `warnings.warn(...)`: one record more, at the end. */
    method Warn(r: RaisedWarning)
      modifies this
      ensures records == old(records) + [r]
    {
      records := records + [r];
    }
  }

  /** One EnsemblDatacheckWarning per message, in order, all with the same origin tag. */
  function Tagged(messages: seq<string>, fileName: string, functionName: string): (r: seq<RaisedWarning>)
    ensures |r| == |messages|
    ensures forall k :: 0 <= k < |r| ==>
      r[k] == DatacheckWarning(EnsemblDatacheckWarning(messages[k], fileName, functionName))
  {
    seq(|messages|, k requires 0 <= k < |messages| =>
      DatacheckWarning(EnsemblDatacheckWarning(messages[k], fileName, functionName)))
  }

  lemma TaggedExtend(messages: seq<string>, k: nat, fileName: string, functionName: string)
    requires k < |messages|
    ensures Tagged(messages[..k + 1], fileName, functionName)
      == Tagged(messages[..k], fileName, functionName) + [DatacheckWarning(EnsemblDatacheckWarning(messages[k], fileName, functionName))]
  {
    assert messages[..k + 1][..k] == messages[..k];
  }

  /** One plain warning of the given category per message, in order. */
  function Plain(messages: seq<string>, category: string): (r: seq<RaisedWarning>)
    ensures |r| == |messages|
    ensures forall k :: 0 <= k < |r| ==> r[k] == PlainWarning(category, messages[k])
  {
    seq(|messages|, k requires 0 <= k < |messages| => PlainWarning(category, messages[k]))
  }

  lemma PlainExtend(messages: seq<string>, k: nat, category: string)
    requires k < |messages|
    ensures Plain(messages[..k + 1], category) == Plain(messages[..k], category) + [PlainWarning(category, messages[k])]
  {
    assert messages[..k + 1][..k] == messages[..k];
  }
}
