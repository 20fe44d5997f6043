/** trimOpenAIEncryptedReasoningItems: removes encrypted reasoning content and encrypted compaction
    items from a request's input, compacting the array in place. */
module ReasoningTrim {
  import opened Strings

  datatype Value = Text(text: string) | NotText(raw: string)

  datatype Item = Object(fields: map<string, Value>) | Plain(raw: string)

  const ENCRYPTED := "encrypted_content"

  function TypeOf(item: Item): string {
    if item.Object? && "type" in item.fields && item.fields["type"].Text?
    then TrimSpace(item.fields["type"].text) else ""
  }

  predicate IsCompaction(item: Item) {
    TypeOf(item) == "compaction" || TypeOf(item) == "compaction_summary"
  }

  /** The item carries encrypted content that another account cannot read. */
  predicate Sealed(item: Item) {
    item.Object? && ENCRYPTED in item.fields && (IsCompaction(item) || TypeOf(item) == "reasoning")
  }

  /** Nothing readable would be left of it. */
  predicate Dropped(item: Item) {
    Sealed(item) && (IsCompaction(item) || |item.fields - {ENCRYPTED}| == 1)
  }

  function Cleaned(item: Item): Item {
    if Sealed(item) then Object(item.fields - {ENCRYPTED}) else item
  }

  /** What happens to the map of an item, whether the item is kept or not. */
  function Scrubbed(item: Item): Item {
    if IsCompaction(item) then item else Cleaned(item)
  }

  /** What an item of a given type comes to: encrypted reasoning is sealed, and dropped when there is nothing in
      it besides; an encrypted compaction is dropped; anything else stays. */
  lemma FateExactly(fields: map<string, Value>, t: string)
    requires "type" in fields && fields["type"] == Text(t)
    ensures var item, kind := Object(fields), TrimSpace(t);
            && (kind == "reasoning" ==>
                  && (Sealed(item) <==> ENCRYPTED in fields)
                  && (Dropped(item) <==> fields.Keys == {"type", ENCRYPTED}))
            && (kind == "compaction" || kind == "compaction_summary" ==>
                  && (Sealed(item) <==> ENCRYPTED in fields) && (Dropped(item) <==> ENCRYPTED in fields))
            && (kind !in {"reasoning", "compaction", "compaction_summary"} ==> !Sealed(item))
  {
    hide TrimSpace;
    var rest := fields - {ENCRYPTED};
    assert "type" in rest.Keys;
    OnlyKey(rest.Keys, "type");
    assert |rest| == |rest.Keys|;
    assert ENCRYPTED in fields ==> fields.Keys == rest.Keys + {ENCRYPTED};
  }

  lemma OnlyKey(keys: set<string>, k: string)
    requires k in keys
    ensures |keys| == 1 <==> keys == {k}
  {
    assert keys == {k} + (keys - {k});
    assert |keys - {k}| == 0 <==> keys - {k} == {};
  }

  lemma UntypedStays(item: Item)
    requires item.Object? ==> "type" !in item.fields || item.fields["type"].NotText?
    ensures !Sealed(item) && Cleaned(item) == Scrubbed(item) == item
  {
  }

  /** An input item as the source holds it: a map that everybody who has it shares. */
  class Entry {
    var item: Item

    constructor (i: Item)
      ensures item == i
    {
      item := i;
    }

    /** Removes encrypted reasoning content from the map itself and says whether to keep the item. */
    method Sanitize() returns (changed: bool, keep: bool)
      modifies this
      ensures changed == Sealed(old(item)) && keep == !Dropped(old(item))
      ensures item == Scrubbed(old(item)) && (keep ==> item == Cleaned(old(item)))
    {
      if item.Plain? {
        return false, true;
      }
      var itemType := TypeOf(item);
      if itemType == "compaction" || itemType == "compaction_summary" {
        if ENCRYPTED in item.fields {
          return true, false;
        }
        return false, true;
      }
      if itemType != "reasoning" || ENCRYPTED !in item.fields {
        return false, true;
      }
      item := Object(item.fields - {ENCRYPTED});
      if |item.fields| == 1 {
        return true, false;
      }
      return true, true;
    }
  }

  /** The entries hold these items. */
  ghost predicate Hold(s: seq<Entry>, items: seq<Item>)
    reads s
  {
    |s| == |items| && forall i | 0 <= i < |s| :: s[i].item == items[i]
  }

  predicate Distinct(s: seq<Entry>) {
    forall i, j | 0 <= i < j < |s| :: s[i] != s[j]
  }

  // ---- lists -----------------------------------------------------------------------------------

  function Filtered(s: seq<Item>): (r: seq<Item>)
    ensures |r| <= |s|
  {
    if s == [] then []
    else Filtered(s[..|s| - 1]) + if Dropped(s[|s| - 1]) then [] else [Cleaned(s[|s| - 1])]
  }

  predicate AnySealed(s: seq<Item>) {
    exists i :: 0 <= i < |s| && Sealed(s[i])
  }

  lemma FilteredGrows(s: seq<Item>, item: Item)
    ensures Filtered(s + [item]) == Filtered(s) + if Dropped(item) then [] else [Cleaned(item)]
  {
  }

  /** The positions that survive. */
  function Survivors(s: seq<Item>): seq<nat> {
    if s == [] then []
    else Survivors(s[..|s| - 1]) + if Dropped(s[|s| - 1]) then [] else [|s| - 1]
  }

  lemma SurvivorsGrow(s: seq<Item>, item: Item)
    ensures Survivors(s + [item]) == Survivors(s) + if Dropped(item) then [] else [|s|]
  {
    assert (s + [item])[..|s + [item]| - 1] == s;
  }

  /** The write position never passes the read position: in front of it lie the survivors in order, from
      it on the array still has the entries it had. The maps are shared, so also the entries left in the
      tail, and those that were dropped, have lost their encrypted reasoning content. */
  method CompactInPlace(a: array<Entry>, n: nat, ghost before: seq<Item>)
    returns (kept: nat, changed: bool, ghost from: seq<nat>)
    requires n <= a.Length && Distinct(a[..n]) && Hold(a[..n], before)
    modifies a, a[..n]
    ensures kept == |from| <= n && from == Survivors(before) && changed == AnySealed(before)
    ensures forall k | 0 <= k < kept :: from[k] < n && a[k] == old(a[from[k]])
    ensures forall j | kept <= j < a.Length :: a[j] == old(a[j])
    ensures forall j | 0 <= j < n :: old(a[j]).item == Scrubbed(before[j])
  {
    hide Sealed, Dropped, Cleaned, Scrubbed, Survivors, AnySealed;
    ghost var all := a[..n];
    kept, changed, from := 0, false, [];
    NothingYet(before);
    for i := 0 to n
      invariant kept == |from| <= i && from == Survivors(before[..i]) && changed == AnySealed(before[..i])
      invariant forall k | 0 <= k < kept :: from[k] < i && a[k] == all[from[k]]
      invariant forall j | kept <= j < a.Length :: a[j] == old(a[j])
      invariant forall j | 0 <= j < i :: all[j].item == Scrubbed(before[j])
      invariant forall j | i <= j < n :: all[j].item == before[j]
    {
      var entry := a[i];
      assert entry == all[i] && before[..i + 1] == before[..i] + [before[i]];
      SurvivorsGrow(before[..i], before[i]);
      SealedGrows(before[..i], before[i]);
      var itemChanged, keep := entry.Sanitize();
      if itemChanged {
        changed := true;
      }
      if keep {
        a[kept] := entry;
        kept := kept + 1;
        from := from + [i];
      }
    }
    assert before[..n] == before;
  }

  /** The entries in front hold the filtered items. */
  lemma SurvivorsHold(all: seq<Entry>, before: seq<Item>, front: seq<Entry>)
    requires Distinct(all) && |all| == |before| && |front| == |Survivors(before)|
    requires forall j | 0 <= j < |all| :: all[j].item == Scrubbed(before[j])
    requires forall k | 0 <= k < |front| :: Survivors(before)[k] < |all| && front[k] == all[Survivors(before)[k]]
    ensures Hold(front, Filtered(before)) && Distinct(front)
  {
    hide Dropped, Cleaned, Scrubbed, Survivors, Filtered;
    SurvivorsInOrder(before);
    forall k | 0 <= k < |front| ensures front[k].item == Filtered(before)[k] {
      KeptIsCleaned(before[Survivors(before)[k]]);
      assert Survivors(before)[k] in Survivors(before);
    }
  }

  lemma NothingYet(s: seq<Item>)
    ensures Survivors(s[..0]) == [] && !AnySealed(s[..0])
  {
  }

  lemma KeptIsCleaned(item: Item)
    ensures !Dropped(item) ==> Scrubbed(item) == Cleaned(item)
  {
  }

  lemma SealedGrows(s: seq<Item>, item: Item)
    ensures AnySealed(s + [item]) == (AnySealed(s) || Sealed(item))
  {
    if AnySealed(s) {
      var i :| 0 <= i < |s| && Sealed(s[i]);
      assert Sealed((s + [item])[i]);
    }
    if Sealed(item) {
      assert Sealed((s + [item])[|s|]);
    }
  }

  // ---- the request -------------------------------------------------------------------------------

  datatype Input = Missing | Many(items: seq<Item>) | One(item: Item) | Opaque(raw: string)

  function Unsealed(input: Input): Input {
    match input
    case Missing => Missing
    case Opaque(_) => input
    case One(item) => if Dropped(item) then Missing else One(Cleaned(item))
    case Many(items) =>
      if Filtered(items) == [] && items != [] then Missing else Many(Filtered(items))
  }

  class RequestInput {
    var hasInput: bool
    var isList: bool
    var list: array<Entry>
    var length: nat
    var single: Input
    ghost var contents: seq<Item>

    ghost predicate Valid()
      reads this, list, list[..]
    {
      && length <= list.Length && Distinct(list[..length]) && Hold(list[..length], contents)
      && (single.One? || single.Opaque?)
    }

    ghost function View(): Input
      reads this
    {
      if !hasInput then Missing else if isList then Many(contents) else single
    }

    constructor (items: array<Entry>, ghost held: seq<Item>)
      requires Distinct(items[..]) && Hold(items[..], held)
      ensures Valid() && View() == Many(held)
    {
      hasInput, isList, list, length, single, contents := true, true, items, items.Length, Opaque(""), held;
      new;
      assert list[..length] == items[..];
    }

    /** The list forms: compact, then forget the tail or the whole field. */
    method TrimList() returns (changed: bool)
      requires Valid() && hasInput && isList
      modifies this, list, list[..length]
      ensures Valid() && View() == Unsealed(old(View()))
      ensures changed <==> View() != old(View())
    {
      hide Sealed, Dropped, Cleaned, Filtered, Scrubbed, Survivors, AnySealed;
      ghost var all := list[..length];
      FilteredExactly(contents);
      var kept;
      ghost var from;
      kept, changed, from := CompactInPlace(list, length, contents);
      SurvivorsHold(all, contents, list[..kept]);
      if !changed {
        assert |Filtered(contents)| == kept;
        return;
      }
      contents := Filtered(contents);
      length := kept;
      if kept == 0 {
        hasInput := false;
      }
    }

    method Trim() returns (changed: bool)
      requires Valid()
      modifies this, list, list[..length]
      ensures Valid() && View() == Unsealed(old(View()))
      ensures changed <==> View() != old(View())
    {
      hide Sealed, Dropped, Cleaned, Filtered, Scrubbed;
      changed := false;
      if !hasInput {
        return;
      }
      if isList {
        changed := TrimList();
        return;
      }
      if single.One? {
        CleanedDiffers(single.item);
        DroppedIsSealed(single.item);
        var entry := new Entry(single.item);
        var keep;
        changed, keep := entry.Sanitize();
        if !changed {
          return;
        }
        if !keep {
          hasInput := false;
        } else {
          single := One(entry.item);
        }
      }
    }
  }

  lemma CleanedDiffers(item: Item)
    ensures Cleaned(item) != item <==> Sealed(item)
    ensures !Sealed(Cleaned(item))
  {
  }

  /** A list comes out unchanged exactly when nothing in it was sealed, and never empty otherwise. */
  lemma {:induction false} FilteredExactly(s: seq<Item>)
    ensures Filtered(s) == s <==> !AnySealed(s)
    ensures |Filtered(s)| == |s| ==> forall i | 0 <= i < |s| :: Filtered(s)[i] == Cleaned(s[i])
  {
    hide Sealed, Dropped, Cleaned;
    if s != [] {
      var init, last := s[..|s| - 1], s[|s| - 1];
      assert s == init + [last];
      FilteredExactly(init);
      SealedGrows(init, last);
      FilteredGrows(init, last);
      CleanedDiffers(last);
      assert Dropped(last) ==> Sealed(last) by { DroppedIsSealed(last); }
      if Filtered(s) == s {
        assert |Filtered(init)| == |init| && Filtered(s)[..|init|] == Filtered(init)
               && Filtered(s)[|init|] == Cleaned(last);
      }
    }
  }

  lemma DroppedIsSealed(item: Item)
    ensures Dropped(item) ==> Sealed(item)
  {
  }

  // ---- what is left ----------------------------------------------------------------------------------

  /** The survivors are the originals in their order, each with nothing but its encrypted content
      removed, and exactly the dropped ones are missing. */
  lemma {:induction false} SurvivorsInOrder(s: seq<Item>)
    ensures |Survivors(s)| == |Filtered(s)|
    ensures forall k | 0 <= k < |Survivors(s)| :: Survivors(s)[k] < |s| && Filtered(s)[k] == Cleaned(s[Survivors(s)[k]])
    ensures forall j, k | 0 <= j < k < |Survivors(s)| :: Survivors(s)[j] < Survivors(s)[k]
    ensures forall i | 0 <= i < |s| :: i in Survivors(s) <==> !Dropped(s[i])
  {
    hide Dropped, Cleaned;
    if s != [] {
      SurvivorsInOrder(s[..|s| - 1]);
      assert forall i | 0 <= i < |s| - 1 :: s[..|s| - 1][i] == s[i];
    }
  }

  /** Nothing sealed is left. */
  lemma {:induction false} NothingSealedLeft(s: seq<Item>)
    ensures !AnySealed(Filtered(s))
  {
    hide Sealed, Dropped, Cleaned;
    if s != [] {
      NothingSealedLeft(s[..|s| - 1]);
      CleanedDiffers(s[|s| - 1]);
    }
  }

  /** Trimming twice is trimming once: a second call finds nothing to do. */
  lemma TrimIsIdempotent(input: Input)
    ensures Unsealed(Unsealed(input)) == Unsealed(input)
  {
    match input
    case Many(items) =>
      NothingSealedLeft(items);
      FilteredExactly(Filtered(items));
    case One(item) => CleanedDiffers(item);
    case _ =>
  }
}
