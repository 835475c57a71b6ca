/**
 * The initial-state loader of dpbiogen/quantum/utils.py: rows of an
 * already-split CSV file become a name → state dictionary. Reading and
 * splitting the file, and Python's `float()`, are parameters.
 */
module StateLoader {
  import opened Wrappers
  import opened Text

  /** `float(s)`: the value, or None where Python raises ValueError. */
  type FloatParser = string -> Option<real>

  /** The row `[name, value]` contributes an entry: two fields, and the stripped value parses. */
  predicate Contributes(row: seq<string>, parse: FloatParser) {
    |row| == 2 && parse(Strip(row[1])).Some?
  }

  /** The states after the given rows: each contributing row sets its stripped name, later rows overwriting earlier ones. */
  function StatesFrom(rows: seq<seq<string>>, parse: FloatParser): map<string, real> {
    if rows == [] then map[]
    else
      var states := StatesFrom(rows[..|rows| - 1], parse);
      var row := rows[|rows| - 1];
      if Contributes(row, parse) then states[Strip(row[0]) := parse(Strip(row[1])).value] else states
  }

  /** One step of `StatesFrom`: the last row updates the states of the rows before it. */
  lemma StatesStep(rows: seq<seq<string>>, parse: FloatParser)
    requires rows != []
    ensures var states := StatesFrom(rows[..|rows| - 1], parse);
            var row := rows[|rows| - 1];
            StatesFrom(rows, parse) == if Contributes(row, parse) then states[Strip(row[0]) := parse(Strip(row[1])).value] else states
  {
  }

  /** The warning printed for a two-field row whose value does not parse. */
  function Warning(row: seq<string>): string
    requires |row| == 2
  {
    "Warning: Invalid state for " + row[0] + ": " + row[1] + " — skipping."
  }

  /** The warnings the given rows print, in row order. */
  function WarningsFrom(rows: seq<seq<string>>, parse: FloatParser): seq<string> {
    if rows == [] then []
    else
      var row := rows[|rows| - 1];
      WarningsFrom(rows[..|rows| - 1], parse)
        + (if |row| == 2 && !Contributes(row, parse) then [Warning(row)] else [])
  }

  /** `load_initial_states_from_csv`, from the split rows on. */
  method LoadInitialStates(rows: seq<seq<string>>, parse: FloatParser) returns (states: map<string, real>, warnings: seq<string>)
    ensures states == StatesFrom(rows, parse)
    ensures warnings == WarningsFrom(rows, parse)
  {
    states := map[];
    warnings := [];
    for i := 0 to |rows|
      invariant states == StatesFrom(rows[..i], parse)
      invariant warnings == WarningsFrom(rows[..i], parse)
    {
      var row := rows[i];
      assert rows[..i + 1][..i] == rows[..i];
      if |row| == 2 {
        var name, stateStr := row[0], row[1];
        var value := parse(Strip(stateStr));
        if value.Some? {
          states := states[Strip(name) := value.value];
        } else {
          warnings := warnings + [Warning(row)];
        }
      }
    }
    assert rows[..|rows|] == rows;
  }

  /** The row sets `name`. */
  predicate SetsName(row: seq<string>, parse: FloatParser, name: string) {
    Contributes(row, parse) && Strip(row[0]) == name
  }

  /** Every name in the result comes from a contributing row: the last one with that name. */
  lemma {:induction false} StatesSource(rows: seq<seq<string>>, parse: FloatParser, name: string) returns (i: nat)
    requires name in StatesFrom(rows, parse)
    ensures i < |rows| && SetsName(rows[i], parse, name)
    ensures forall j :: i < j < |rows| ==> !SetsName(rows[j], parse, name)
    ensures StatesFrom(rows, parse)[name] == parse(Strip(rows[i][1])).value
  {
    var init := rows[..|rows| - 1];
    var last := rows[|rows| - 1];
    if SetsName(last, parse, name) {
      i := |rows| - 1;
      assert StatesFrom(rows, parse)[name] == parse(Strip(last[1])).value by {
        StatesStep(rows, parse);
      }
    } else {
      assert name in StatesFrom(init, parse) && StatesFrom(rows, parse)[name] == StatesFrom(init, parse)[name] by {
        StatesStep(rows, parse);
      }
      i := StatesSource(init, parse, name);
      assert rows[i] == init[i];
      NoneAfter(rows, init, row => SetsName(row, parse, name), i);
    }
  }

  /** No element after `i` has the property when none of the earlier ones after `i` has it and the last one does not. */
  lemma NoneAfter<T>(s: seq<T>, init: seq<T>, p: T -> bool, i: nat)
    requires s != [] && init == s[..|s| - 1] && !p(s[|s| - 1])
    requires forall j :: i < j < |init| ==> !p(init[j])
    ensures forall j :: i < j < |s| ==> !p(s[j])
  {
    forall j | i < j < |s|
      ensures !p(s[j])
    {
      if j < |init| {
        assert init[j] == s[j];
      }
    }
  }

  /** Every contributing row's stripped name is in the result. */
  lemma {:induction false} StatesCover(rows: seq<seq<string>>, parse: FloatParser, i: nat)
    requires i < |rows| && Contributes(rows[i], parse)
    ensures Strip(rows[i][0]) in StatesFrom(rows, parse)
  {
    var init := rows[..|rows| - 1];
    var last := rows[|rows| - 1];
    var name := Strip(rows[i][0]);
    StatesStep(rows, parse);
    if i < |rows| - 1 {
      assert init[i] == rows[i];
      StatesCover(init, parse, i);
      assert name in StatesFrom(init, parse);
    }
  }

  /**
   * A name is in the result exactly when some row with two fields has that
   * stripped name and a parsable stripped value.
   */
  lemma StatesKeys(rows: seq<seq<string>>, parse: FloatParser, name: string)
    ensures name in StatesFrom(rows, parse) <==> exists i :: 0 <= i < |rows| && SetsName(rows[i], parse, name)
  {
    if name in StatesFrom(rows, parse) {
      var i := StatesSource(rows, parse, name);
    }
    if exists i :: 0 <= i < |rows| && SetsName(rows[i], parse, name) {
      var i :| 0 <= i < |rows| && SetsName(rows[i], parse, name);
      StatesCover(rows, parse, i);
    }
  }

  /** The value kept for a name is the one from the last contributing row with that name. */
  lemma LastRowWins(rows: seq<seq<string>>, parse: FloatParser, i: nat)
    requires i < |rows| && Contributes(rows[i], parse)
    requires forall j :: i < j < |rows| ==> !SetsName(rows[j], parse, Strip(rows[i][0]))
    ensures Strip(rows[i][0]) in StatesFrom(rows, parse)
    ensures StatesFrom(rows, parse)[Strip(rows[i][0])] == parse(Strip(rows[i][1])).value
  {
    StatesCover(rows, parse, i);
    var j := StatesSource(rows, parse, Strip(rows[i][0]));
    assert SetsName(rows[i], parse, Strip(rows[i][0]));
  }

  /** Every name in the result is already stripped, and a row that does not contribute changes nothing. */
  lemma StatesNamesStripped(rows: seq<seq<string>>, parse: FloatParser, name: string)
    requires name in StatesFrom(rows, parse)
    ensures Strip(name) == name
  {
    StatesKeys(rows, parse, name);
    var i :| 0 <= i < |rows| && SetsName(rows[i], parse, name);
    StripIdempotent(rows[i][0]);
  }

  /** Rows with the wrong field count or an unparsable value leave the states as they were. */
  lemma IgnoredRow(rows: seq<seq<string>>, parse: FloatParser, row: seq<string>)
    requires !Contributes(row, parse)
    ensures StatesFrom(rows + [row], parse) == StatesFrom(rows, parse)
    ensures |row| != 2 ==> WarningsFrom(rows + [row], parse) == WarningsFrom(rows, parse)
  {
    assert (rows + [row])[..|rows|] == rows;
  }
}
