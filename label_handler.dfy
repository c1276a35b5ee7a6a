/**
 * src/handler/index.ts: adds to a pull request the labels whose file-change
 * rule it meets, in one request. The inputs and the parsed JSON `config` list
 * are parameters; the listed pull-request files are a parameter too.
 */
module LabelHandler {
  import opened Wrappers
  import opened MatchUtil
  import opened Selection

  /** A label entry of the JSON `config`; `None` for a key that is missing or null. */
  datatype JsonLabel = JsonLabel(name: Option<string>, ifInclude: Option<seq<string>>, ifNotInclude: Option<seq<string>>)

  /** A label to consider; its name is `None` when the JSON entry had none. */
  datatype Label = Label(name: Option<string>, ifInclude: seq<string>, ifNotInclude: seq<string>)

  /** A JSON entry with the input lists as defaults. */
  function FromJson(jl: JsonLabel, ifInclude: seq<string>, ifNotInclude: seq<string>): Label
  {
    Label(jl.name, jl.ifInclude.GetOr(ifInclude), jl.ifNotInclude.GetOr(ifNotInclude))
  }

  predicate EmptyName(jl: JsonLabel)
  {
    jl.name.None? || jl.name.value == ""
  }

  /** Builds the label list: the label from the inputs first, then one label
      per JSON entry in order. An entry without a name is reported (its index
      is returned in `emptyNames`) and still added. */
  method BuildLabels(name: string, ifInclude: seq<string>, ifNotInclude: seq<string>, jsonLabels: seq<JsonLabel>)
    returns (labels: seq<Label>, emptyNames: seq<nat>)
    ensures |labels| == |jsonLabels| + 1
    ensures labels[0] == Label(Some(name), ifInclude, ifNotInclude)
    ensures forall i :: 0 <= i < |jsonLabels| ==> labels[i + 1] == FromJson(jsonLabels[i], ifInclude, ifNotInclude)
    ensures forall i: nat :: i in emptyNames <==> i < |jsonLabels| && EmptyName(jsonLabels[i])
  {
    labels := [Label(Some(name), ifInclude, ifNotInclude)];
    emptyNames := [];
    for i := 0 to |jsonLabels|
      invariant |labels| == i + 1
      invariant labels[0] == Label(Some(name), ifInclude, ifNotInclude)
      invariant forall k :: 0 <= k < i ==> labels[k + 1] == FromJson(jsonLabels[k], ifInclude, ifNotInclude)
      invariant forall k: nat :: k in emptyNames <==> k < i && EmptyName(jsonLabels[k])
    {
      var jl := jsonLabels[i];
      if jl.name.None? || jl.name.value == "" {
        emptyNames := emptyNames + [i];
      }
      labels := labels + [FromJson(jl, ifInclude, ifNotInclude)];
    }
  }

  /** The names of the selected labels, in list order. */
  function SelectedNames(labels: seq<Label>, changedFiles: seq<string>, glob: Glob): (r: seq<Option<string>>)
    ensures |r| <= |labels|
    ensures forall n :: n in r <==> exists l :: l in labels && l.name == n && Selected(l.ifInclude, l.ifNotInclude, changedFiles, glob)
    decreases |labels|
  {
    if labels == [] then []
    else
      var l := labels[0];
      var rest := SelectedNames(labels[1..], changedFiles, glob);
      assert labels == [l] + labels[1..];
      if Selected(l.ifInclude, l.ifNotInclude, changedFiles, glob) then [l.name] + rest else rest
  }

  /** The handler: builds the label list, fetches the changed files (whose
      `concat` result is discarded, so the list stays empty), then collects the
      selected names. The result is the `labels` argument of the single
      addLabels request. */
  method RunLabelHandler(name: string, ifInclude: seq<string>, ifNotInclude: seq<string>, jsonLabels: seq<JsonLabel>,
                         pullFiles: seq<string>, glob: Glob)
    returns (addLabels: seq<Option<string>>)
    ensures var labels := [Label(Some(name), ifInclude, ifNotInclude)]
                          + seq(|jsonLabels|, i requires 0 <= i < |jsonLabels| => FromJson(jsonLabels[i], ifInclude, ifNotInclude));
            addLabels == SelectedNames(labels, [], glob)
  {
    var labels, _ := BuildLabels(name, ifInclude, ifNotInclude, jsonLabels);
    ghost var expected := [Label(Some(name), ifInclude, ifNotInclude)]
                          + seq(|jsonLabels|, i requires 0 <= i < |jsonLabels| => FromJson(jsonLabels[i], ifInclude, ifNotInclude));
    assert labels == expected;
    var changedFiles: seq<string> := [];
    var _ := changedFiles + pullFiles;
    addLabels := [];
    for i := 0 to |labels|
      invariant addLabels + SelectedNames(labels[i..], changedFiles, glob) == SelectedNames(labels, changedFiles, glob)
    {
      var entry := labels[i];
      assert labels[i..] == [entry] + labels[i + 1..];
      var matched := SelectionFlag(entry.ifInclude, entry.ifNotInclude, changedFiles, glob);
      if matched {
        addLabels := addLabels + [entry.name];
      }
    }
    assert labels[|labels|..] == [];
  }

  /** As the changed-file list stays empty, a label with only an `if_include`
      list is never added, and one with an `if_not_include` list always is. */
  lemma IncludeOnlyNeverAdded(labels: seq<Label>, glob: Glob)
    ensures forall n :: n in SelectedNames(labels, [], glob) <==>
              exists l :: l in labels && l.name == n && (|l.ifInclude| == 0 || |l.ifNotInclude| != 0)
  {
    forall l | l in labels
      ensures Selected(l.ifInclude, l.ifNotInclude, [], glob) <==> (|l.ifInclude| == 0 || |l.ifNotInclude| != 0)
    {
      SelectedWithoutChangedFiles(l.ifInclude, l.ifNotInclude, glob);
    }
  }
}
