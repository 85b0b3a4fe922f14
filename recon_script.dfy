/** The selection of the reconstruction command in the gadget's `process`:
    the command script is read line by line and the last non-empty line
    that mentions `bart` is kept. */
module ReconScript {
  import opened Text

  /** A line the loop does not skip. */
  predicate IsBartLine(line: string) {
    line != [] && Contains(line, "bart")
  }

  /** The last line of `lines` that is a bart line, or "" when none is. */
  function LastBartLine(lines: seq<string>): string {
    if lines == [] then ""
    else if IsBartLine(lines[|lines| - 1]) then lines[|lines| - 1]
    else LastBartLine(lines[..|lines| - 1])
  }

  /** The result is "" exactly when no line is a bart line; otherwise it is
      a bart line of the script that no later bart line follows. */
  lemma {:induction false} LastBartLineIsLast(lines: seq<string>)
    ensures LastBartLine(lines) == "" <==> forall i :: 0 <= i < |lines| ==> !IsBartLine(lines[i])
    ensures LastBartLine(lines) != "" ==>
      exists i :: 0 <= i < |lines| && lines[i] == LastBartLine(lines) && IsBartLine(lines[i])
                  && forall j :: i < j < |lines| ==> !IsBartLine(lines[j])
  {
    if lines != [] {
      var init := lines[..|lines| - 1];
      LastBartLineIsLast(init);
      if !IsBartLine(lines[|lines| - 1]) {
        assert forall i :: 0 <= i < |init| ==> init[i] == lines[i];
        if LastBartLine(init) != "" {
          var i :| 0 <= i < |init| && init[i] == LastBartLine(init) && IsBartLine(init[i])
                   && forall j :: i < j < |init| ==> !IsBartLine(init[j]);
          assert forall j :: i < j < |lines| ==> !IsBartLine(lines[j]) by {
            forall j | i < j < |lines| ensures !IsBartLine(lines[j]) {
              if j < |init| { assert lines[j] == init[j]; }
            }
          }
        }
      }
    }
  }

  /** A script whose last bart line is `cmd` and which ends with lines that
      are not bart lines still selects `cmd`. */
  lemma {:induction false} TrailingLinesIgnored(lines: seq<string>, tail: seq<string>)
    requires forall i :: 0 <= i < |tail| ==> !IsBartLine(tail[i])
    ensures LastBartLine(lines + tail) == LastBartLine(lines)
  {
    if tail != [] {
      var t := tail[..|tail| - 1];
      assert (lines + tail)[..|lines + tail| - 1] == lines + t;
      TrailingLinesIgnored(lines, t);
    } else {
      assert lines + tail == lines;
    }
  }

  /** The loop over the lines std::getline produces from the script: empty
      lines and lines without `bart` are skipped, every other line replaces
      the command kept so far. */
  method LastBartCommand(script: string) returns (lastCommand: string)
    ensures lastCommand == LastBartLine(GetlineSplit(script, '\n'))
  {
    var lines := GetlineSplit(script, '\n');
    lastCommand := "";
    var i := 0;
    while i < |lines|
      invariant 0 <= i <= |lines|
      invariant lastCommand == LastBartLine(lines[..i])
    {
      assert lines[..i + 1][..i] == lines[..i];
      if lines[i] != [] && Contains(lines[i], "bart") {
        lastCommand := lines[i];
      }
      i := i + 1;
    }
    assert lines[..|lines|] == lines;
  }
}
