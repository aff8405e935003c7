/**
 * The `ensembl-datacheck` command (datacheck/runner.py): the arguments it
 * hands to pytest are the ones it was given, followed by the plugin, and by
 * the one option that picks the output: the plugin's summary with
 * tracebacks off, or pytest's own output when tracebacks are asked for.
 */
module Runner {
  import opened Strings

  const PLUGIN_FLAG: string := "-p"
  const PLUGIN_NAME: string := "ensembl.datacheck.plugin"
  const NATIVE_OUTPUT: string := "--native-output"
  const TB_PREFIX: string := "--tb"
  const TB_NO: string := "--tb=no"

  /** Some argument sets the traceback style. */
  predicate HasTracebackOption(args: seq<string>) {
    exists i | 0 <= i < |args| :: StartsWith(args[i], TB_PREFIX)
  }

  /** `sys.argv[1:]`: the arguments without the script name. */
  function GivenArguments(argv: seq<string>): seq<string> {
    if |argv| == 0 then [] else argv[1..]
  }

  /**
   * The arguments pytest receives, decided on the given arguments alone:
   * native output is kept as asked; otherwise a traceback option asks for
   * it, and without one tracebacks are switched off.
   */
  function PytestArguments(given: seq<string>): seq<string> {
    var withPlugin := given + [PLUGIN_FLAG, PLUGIN_NAME];
    if NATIVE_OUTPUT in given then withPlugin
    else if HasTracebackOption(given) then withPlugin + [NATIVE_OUTPUT]
    else withPlugin + [TB_NO]
  }

  /** The given arguments come first, unchanged, then the plugin pair, then at most one more. */
  lemma GivenThenPlugin(given: seq<string>)
    ensures |given| + 2 <= |PytestArguments(given)| <= |given| + 3
    ensures PytestArguments(given)[..|given|] == given
    ensures PytestArguments(given)[|given|] == PLUGIN_FLAG && PytestArguments(given)[|given| + 1] == PLUGIN_NAME
    ensures NATIVE_OUTPUT in given ==> |PytestArguments(given)| == |given| + 2
  {
  }

  /**
   * Every run picks an output: native output, or the plugin's summary with
   * tracebacks off; a traceback option always gets native output.
   */
  lemma OutputAlwaysChosen(given: seq<string>)
    ensures NATIVE_OUTPUT in PytestArguments(given) || TB_NO in PytestArguments(given)
    ensures HasTracebackOption(given) ==> NATIVE_OUTPUT in PytestArguments(given)
    ensures NATIVE_OUTPUT !in given && !HasTracebackOption(given) ==> LastOf(PytestArguments(given)) == TB_NO
  {
    var r := PytestArguments(given);
    if NATIVE_OUTPUT in given {
      var i :| 0 <= i < |given| && given[i] == NATIVE_OUTPUT;
      assert r[i] == NATIVE_OUTPUT;
    } else {
      assert r[|r| - 1] in r;
    }
  }

  /** The plugin pair never sets a traceback style and never asks for native output. */
  lemma PluginPairNeutral()
    ensures !StartsWith(PLUGIN_FLAG, TB_PREFIX) && !StartsWith(PLUGIN_NAME, TB_PREFIX)
    ensures PLUGIN_FLAG != NATIVE_OUTPUT && PLUGIN_NAME != NATIVE_OUTPUT
  {
    assert PLUGIN_NAME[..|TB_PREFIX|][0] == 'e';
    assert |PLUGIN_NAME| != |NATIVE_OUTPUT|;
  }

  /** `main` up to `pytest.main`: the argument list it builds. */
  method MainArguments(argv: seq<string>) returns (args: seq<string>)
    ensures args == PytestArguments(GivenArguments(argv))
  {
    args := if |argv| == 0 then [] else argv[1..];
    ghost var given := args;
    args := args + [PLUGIN_FLAG, PLUGIN_NAME];
    var tbPresent := false;
    for i := 0 to |args|
      invariant tbPresent <==> exists j | 0 <= j < i :: StartsWith(args[j], TB_PREFIX)
    {
      if StartsWith(args[i], TB_PREFIX) {
        tbPresent := true;
      }
    }
    var nativePresent := NATIVE_OUTPUT in args;
    PluginPairNeutral();
    assert args[|given|] == PLUGIN_FLAG && args[|given| + 1] == PLUGIN_NAME;
    assert tbPresent <==> HasTracebackOption(given) by {
      if tbPresent {
        var j :| 0 <= j < |args| && StartsWith(args[j], TB_PREFIX);
        assert j < |given|;
        assert given[j] == args[j];
      }
      if HasTracebackOption(given) {
        var j :| 0 <= j < |given| && StartsWith(given[j], TB_PREFIX);
        assert args[j] == given[j];
      }
    }
    assert nativePresent <==> NATIVE_OUTPUT in given by {
      if nativePresent {
        var j :| 0 <= j < |args| && args[j] == NATIVE_OUTPUT;
        assert j < |given|;
        assert given[j] == args[j];
      }
    }
    if tbPresent && !nativePresent {
      args := args + [NATIVE_OUTPUT];
    } else if !nativePresent {
      args := args + [TB_NO];
    }
  }
}
