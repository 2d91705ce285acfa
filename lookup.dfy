/** Ordered first-hit searches: the `for key in ...: if <test>: return ...`
    loops of the pipeline, over keys kept in the order Python iterates them
    (list order, or insertion order for a dict). */
module Lookup {
  import opened Text

  /** How a key is compared with the text it is looked up in. */
  datatype KeyTest =
    | SameFolded    // `key.lower() == text`
    | WithinFolded  // `key.lower() in text`
    | Within        // `key in text`

  predicate Passes(test: KeyTest, key: string, text: string) {
    match test
    case SameFolded => Lower(key) == text
    case WithinFolded => Contains(text, Lower(key))
    case Within => Contains(text, key)
  }

  /** Index of the first key, at or after `from`, that passes the test. */
  function FirstKeyFrom(keys: seq<string>, test: KeyTest, text: string, from: nat): (r: Option<nat>)
    requires from <= |keys|
    ensures r.Some? ==> from <= r.value < |keys| && Passes(test, keys[r.value], text)
    ensures r.Some? ==> forall j :: from <= j < r.value ==> !Passes(test, keys[j], text)
    ensures r.None? ==> forall j :: from <= j < |keys| ==> !Passes(test, keys[j], text)
    decreases |keys| - from
  {
    if from == |keys| then None
    else if Passes(test, keys[from], text) then Some(from)
    else FirstKeyFrom(keys, test, text, from + 1)
  }

  /** Index of the first key that passes the test: none passes before it. */
  function FirstKey(keys: seq<string>, test: KeyTest, text: string): (r: Option<nat>)
    ensures r.Some? ==> r.value < |keys| && Passes(test, keys[r.value], text)
    ensures r.Some? ==> forall j :: 0 <= j < r.value ==> !Passes(test, keys[j], text)
    ensures r.None? <==> forall j :: 0 <= j < |keys| ==> !Passes(test, keys[j], text)
  {
    FirstKeyFrom(keys, test, text, 0)
  }

  function Keys<V>(pairs: seq<(string, V)>): (ks: seq<string>)
    ensures |ks| == |pairs|
  {
    seq(|pairs|, i requires 0 <= i < |pairs| => pairs[i].0)
  }

  /** The value paired with the first key that passes the test. */
  function FirstValue<V>(pairs: seq<(string, V)>, test: KeyTest, text: string): (r: Option<V>)
    ensures r.None? <==> forall j :: 0 <= j < |pairs| ==> !Passes(test, pairs[j].0, text)
    ensures r.Some? ==> exists i :: 0 <= i < |pairs| && FirstPassingPair(pairs, test, text, i) && r.value == pairs[i].1
  {
    var ks := Keys(pairs);
    assert forall j :: 0 <= j < |pairs| ==> ks[j] == pairs[j].0;
    match FirstKey(ks, test, text)
    case None => None
    case Some(i) =>
      assert FirstPassingPair(pairs, test, text, i);
      Some(pairs[i].1)
  }

  /** The pair at `i` passes the test and no pair before it does. */
  predicate FirstPassingPair<V>(pairs: seq<(string, V)>, test: KeyTest, text: string, i: nat) {
    && i < |pairs|
    && Passes(test, pairs[i].0, text)
    && forall j :: 0 <= j < i ==> !Passes(test, pairs[j].0, text)
  }

  lemma FirstValueAt<V>(pairs: seq<(string, V)>, test: KeyTest, text: string, i: nat)
    requires FirstPassingPair(pairs, test, text, i)
    ensures FirstValue(pairs, test, text) == Some(pairs[i].1)
  {
  }

  /** The first non-empty string of a fallback chain `a or b or ...`. */
  function FirstNonEmpty(xs: seq<string>): (r: string)
    ensures r == "" <==> forall k :: 0 <= k < |xs| ==> xs[k] == ""
    ensures r != "" ==> exists k :: 0 <= k < |xs| && xs[k] == r && forall j :: 0 <= j < k ==> xs[j] == ""
  {
    if xs == [] then ""
    else if xs[0] != "" then xs[0]
    else
      var r := FirstNonEmpty(xs[1..]);
      assert forall k :: 1 <= k < |xs| ==> xs[k] == xs[1..][k - 1];
      r
  }
}
