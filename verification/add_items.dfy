/**
 * Queueing an item from the page script: the serialized item is appended to
 * the pending-data attribute, which holds a comma-separated list that the
 * application later wraps in brackets and reads as one JSON array.
 *
 * The attribute is read as an optional string (`getAttribute` gives null
 * when it is missing); serialization, the attribute write and the button
 * press that follows are outside the model.
 */
module AddItems {
  import opened Wrappers

  predicate EndsWithComma(s: string) {
    |s| > 0 && s[|s| - 1] == ','
  }

  /**
   * The new attribute value: the item alone when nothing is stored, else the
   * stored text, a separating comma unless it already ends with one, and the
   * item.
   */
  function AppendedData(stored: Option<string>, data: string): (r: string)
    ensures stored.None? || stored == Some("") ==> r == data
    ensures stored.Some? && stored.value != "" && EndsWithComma(stored.value) ==> r == stored.value + data
    ensures stored.Some? && stored.value != "" && !EndsWithComma(stored.value) ==> r == stored.value + "," + data
    ensures stored.Some? ==> stored.value <= r
    ensures |r| >= |data| && r[|r| - |data|..] == data
  {
    if stored.Some? && stored.value != "" then
      (if EndsWithComma(stored.value) then stored.value else stored.value + ",") + data
    else data
  }

  /** The update of the stored attribute, step by step as the page script does it. */
  method AddItem(stored: Option<string>, data: string) returns (newData: string)
    ensures newData == AppendedData(stored, data)
  {
    if stored.Some? && stored.value != "" {
      newData := stored.value;
      if !EndsWithComma(newData) {
        newData := newData + ",";
      }
    } else {
      newData := "";
    }
    newData := newData + data;
  }

  /** Items joined with single commas. */
  function Join(items: seq<string>): string
    decreases |items|
  {
    if |items| == 0 then ""
    else if |items| == 1 then items[0]
    else Join(items[..|items| - 1]) + "," + items[|items| - 1]
  }

  /** The attribute after adding `items` one by one to an empty attribute. */
  function AddAll(items: seq<string>): string
    decreases |items|
  {
    if items == [] then "" else AppendedData(Some(AddAll(items[..|items| - 1])), items[|items| - 1])
  }

  /** A serialized item: never empty and never ending in a comma. */
  predicate Serialized(data: string) {
    data != "" && !EndsWithComma(data)
  }

  /**
   * Adding serialized items one by one yields exactly their comma-separated
   * list, so bracketing the attribute gives a JSON array of the items.
   */
  lemma {:induction false} AddAllJoins(items: seq<string>)
    requires forall k :: 0 <= k < |items| ==> Serialized(items[k])
    ensures AddAll(items) == Join(items)
    ensures items != [] ==> Serialized(AddAll(items))
    decreases |items|
  {
    if items != [] {
      var init := items[..|items| - 1];
      var last := items[|items| - 1];
      AddAllJoins(init);
      if init == [] {
        assert AddAll(init) == "";
        assert items == [last];
      } else {
        assert Serialized(AddAll(init));
        assert AddAll(items) == AddAll(init) + "," + last;
      }
      var r := AddAll(items);
      assert r[|r| - |last|..] == last;
      assert r[|r| - 1] == last[|last| - 1];
    }
  }
}
