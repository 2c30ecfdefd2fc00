/**
 * The label table that `process_labels` builds: one pass over the loaded
 * lines, recording the index of every line that holds a colon under the
 * line's text with all colons removed and surrounding whitespace stripped.
 */
module Labels {
  import opened Text

  /** The label test of the table builder: a colon anywhere in the raw line. */
  predicate DefinesLabel(line: string) {
    ':' in line
  }

  /** The name a label line is recorded under: `line.replace(":", "").strip()`. */
  function LabelName(line: string): string {
    Strip(RemoveAll(line, ':'))
  }

  /** Line `i` of `lines` is a label line recorded under `name`. */
  predicate Defines(lines: seq<string>, i: int, name: string) {
    0 <= i < |lines| && DefinesLabel(lines[i]) && LabelName(lines[i]) == name
  }

  /** The table after the loop of `process_labels` has visited lines `0 .. n-1`, starting from `init`. */
  function LabelsUpTo(init: map<string, nat>, lines: seq<string>, n: nat): map<string, nat>
    requires n <= |lines|
  {
    if n == 0 then init
    else
      var table := LabelsUpTo(init, lines, n - 1);
      if DefinesLabel(lines[n - 1]) then table[LabelName(lines[n - 1]) := n - 1] else table
  }

  /**
   * A name is in the table exactly when it was there before or some visited
   * line defines it.
   */
  lemma {:induction false} LabelsKeys(init: map<string, nat>, lines: seq<string>, n: nat, name: string)
    requires n <= |lines|
    ensures name in LabelsUpTo(init, lines, n) <==> name in init || exists i :: 0 <= i < n && Defines(lines, i, name)
  {
    if n > 0 {
      LabelsKeys(init, lines, n - 1, name);
      if name in LabelsUpTo(init, lines, n) && name !in init && name !in LabelsUpTo(init, lines, n - 1) {
        assert Defines(lines, n - 1, name);
      }
    }
  }

  /**
   * Every entry is either untouched from `init`, when no visited line defines
   * the name, or the index of the last visited line that defines it.
   */
  lemma {:induction false} LabelsSound(init: map<string, nat>, lines: seq<string>, n: nat, name: string)
    requires n <= |lines|
    requires name in LabelsUpTo(init, lines, n)
    ensures var table := LabelsUpTo(init, lines, n);
      || (name in init && table[name] == init[name] && forall i :: 0 <= i < n ==> !Defines(lines, i, name))
      || (table[name] < n && Defines(lines, table[name], name) && forall j :: table[name] < j < n ==> !Defines(lines, j, name))
  {
    if n > 0 {
      if !Defines(lines, n - 1, name) {
        LabelsSound(init, lines, n - 1, name);
      }
    }
  }

  /** A repeated name keeps the index of its last definition. */
  lemma {:induction false} LabelsLastWins(init: map<string, nat>, lines: seq<string>, n: nat, i: nat, name: string)
    requires n <= |lines| && i < n && Defines(lines, i, name)
    requires forall j :: i < j < n ==> !Defines(lines, j, name)
    ensures name in LabelsUpTo(init, lines, n) && LabelsUpTo(init, lines, n)[name] == i
  {
    if i < n - 1 {
      assert !Defines(lines, n - 1, name);
      LabelsLastWins(init, lines, n - 1, i, name);
    }
  }

  /** A name that no visited line defines keeps its entry from `init`. */
  lemma {:induction false} LabelsKeepOthers(init: map<string, nat>, lines: seq<string>, n: nat, name: string)
    requires n <= |lines| && name in init
    requires forall i :: 0 <= i < n ==> !Defines(lines, i, name)
    ensures name in LabelsUpTo(init, lines, n) && LabelsUpTo(init, lines, n)[name] == init[name]
  {
    if n > 0 {
      assert !Defines(lines, n - 1, name);
      LabelsKeepOthers(init, lines, n - 1, name);
    }
  }

  /** Built from an empty table, every recorded index is the index of a line of the program. */
  lemma LabelsInBounds(lines: seq<string>)
    ensures forall name :: name in LabelsUpTo(map[], lines, |lines|) ==>
      LabelsUpTo(map[], lines, |lines|)[name] < |lines|
  {
    forall name | name in LabelsUpTo(map[], lines, |lines|)
      ensures LabelsUpTo(map[], lines, |lines|)[name] < |lines|
    {
      LabelsSound(map[], lines, |lines|, name);
    }
  }

  /** The usual label line `name:` is recorded under `name`. */
  lemma LabelNameOfColonLine(name: string)
    requires IsWord(name) && ':' !in name
    ensures DefinesLabel(name + ":")
    ensures LabelName(name + ":") == name
  {
    RemoveAllAppend(name, ":", ':');
    RemoveAllAbsent(name, ':');
    assert RemoveAll(":", ':') == [];
    assert name + [] == name;
    assert (name + ":")[|name|] == ':';
    StripWord(name);
  }

  /** A word has no surrounding whitespace to strip. */
  lemma StripWord(w: string)
    requires IsWord(w)
    ensures Strip(w) == w
  {
    assert TrimStart(w) == w;
    assert TrimEnd(w) == w;
  }
}
