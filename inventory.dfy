/** What the inventory manager's operations do to the ordered list of item
    states it holds. The manager class is proved to change its contents
    exactly as these functions say; the lemmas here state what the
    operations promise. */
module Inventory {
  import opened Items

  datatype Option<T> = None | Some(value: T)

  function Max(a: int, b: int): int { if a >= b then a else b }

  /** Some item in `s` has identifier `id`. */
  predicate HasId(s: seq<ItemValue>, id: int)
  {
    exists k :: 0 <= k < |s| && s[k].id == id
  }

  /** No two items in `s` share an identifier. */
  predicate UniqueIds(s: seq<ItemValue>)
  {
    forall j, k :: 0 <= j < k < |s| ==> s[j].id != s[k].id
  }

  /** Every level in `s` is at most MaxLevel. */
  predicate LevelsBounded(s: seq<ItemValue>)
  {
    forall k :: 0 <= k < |s| ==> s[k].level <= MaxLevel
  }

  /** `s` without the element at `k`; the elements after it move one place
      to the left and keep their order. */
  function RemoveAt<T>(s: seq<T>, k: nat): (r: seq<T>)
    requires k < |s|
    ensures |r| == |s| - 1
    ensures forall j :: 0 <= j < k ==> r[j] == s[j]
    ensures forall j :: k <= j < |r| ==> r[j] == s[j + 1]
  {
    s[..k] + s[k + 1..]
  }

  // ---------------------------------------------------------------- RemoveItem

  /** The position of the first item with identifier `id`, if any. */
  function FirstWithId(s: seq<ItemValue>, id: int): (r: Option<nat>)
    ensures r.Some? ==> r.value < |s| && s[r.value].id == id
    ensures r.Some? ==> forall j :: 0 <= j < r.value ==> s[j].id != id
    ensures r.None? ==> forall j :: 0 <= j < |s| ==> s[j].id != id
  {
    if s == [] then None
    else if s[0].id == id then Some(0)
    else match FirstWithId(s[1..], id)
      case None => None
      case Some(k) => Some(k + 1)
  }

  /** RemoveItem: the first item with identifier `id` is removed; without
      one, nothing changes. */
  function RemoveFirst(s: seq<ItemValue>, id: int): seq<ItemValue>
  {
    match FirstWithId(s, id)
    case None => s
    case Some(k) => RemoveAt(s, k)
  }

  /** Removing an identifier that is present deletes exactly the first item
      carrying it: the items before it stay, the items after it move one
      place left in the same order, and the list is one shorter. */
  lemma RemoveFirstDeletesFirstMatch(s: seq<ItemValue>, id: int, k: nat)
    requires k < |s| && s[k].id == id
    requires forall j :: 0 <= j < k ==> s[j].id != id
    ensures RemoveFirst(s, id) == s[..k] + s[k + 1..]
    ensures |RemoveFirst(s, id)| == |s| - 1
  {
  }

  /** Removing an identifier that is absent changes nothing. */
  lemma RemoveFirstAbsent(s: seq<ItemValue>, id: int)
    requires forall j :: 0 <= j < |s| ==> s[j].id != id
    ensures RemoveFirst(s, id) == s
  {
  }

  /** When identifiers are unique, removing one leaves no item with that
      identifier, and the identifiers stay unique. */
  lemma RemoveFirstUnique(s: seq<ItemValue>, id: int)
    requires UniqueIds(s)
    ensures !HasId(RemoveFirst(s, id), id)
    ensures UniqueIds(RemoveFirst(s, id))
    ensures |RemoveFirst(s, id)| == if HasId(s, id) then |s| - 1 else |s|
  {
  }

  // ------------------------------------------------------------------- LevelUp

  /** One item's part of LevelUp(id): a level step when the identifier matches. */
  function LevelUpIfMatch(v: ItemValue, id: int): ItemValue
  {
    if v.id == id then v.(level := NextLevel(v.level)) else v
  }

  /** LevelUp(id): every item with identifier `id` gets one level step; the
      order and every other item stay as they were. */
  function LevelUpAll(s: seq<ItemValue>, id: int): (r: seq<ItemValue>)
    ensures |r| == |s|
    ensures forall k :: 0 <= k < |s| ==> r[k] == LevelUpIfMatch(s[k], id)
  {
    if s == [] then [] else [LevelUpIfMatch(s[0], id)] + LevelUpAll(s[1..], id)
  }

  /** LevelUp changes only levels: identifiers, names, ranks and categories
      are kept; matching levels rise by at most one and never fall; levels
      within MaxLevel stay within it. */
  lemma LevelUpAllOnlyLevels(s: seq<ItemValue>, id: int)
    ensures forall k :: 0 <= k < |s| ==>
      LevelUpAll(s, id)[k] == s[k].(level := LevelUpAll(s, id)[k].level)
    ensures forall k :: 0 <= k < |s| ==>
      s[k].level <= LevelUpAll(s, id)[k].level <= s[k].level + 1
    ensures forall k :: 0 <= k < |s| && s[k].id != id ==> LevelUpAll(s, id)[k] == s[k]
    ensures LevelsBounded(s) ==> LevelsBounded(LevelUpAll(s, id))
    ensures UniqueIds(s) ==> UniqueIds(LevelUpAll(s, id))
  {
  }

  // -------------------------------------------------------------- ItemSynthesis

  /** The scan's target: the position of the LAST item with identifier `t`,
      or -1. */
  function ScanTarget(s: seq<ItemValue>, t: int): (r: int)
    ensures -1 <= r < |s|
    ensures r >= 0 ==> s[r].id == t
    decreases |s|
  {
    if s == [] then -1
    else if s[|s| - 1].id == t then |s| - 1
    else ScanTarget(s[..|s| - 1], t)
  }

  /** The scan's target is the last item with identifier `t`; it is missing
      exactly when no item has that identifier. */
  lemma {:induction false} ScanTargetIsLast(s: seq<ItemValue>, t: int)
    ensures var r := ScanTarget(s, t);
      (r >= 0 ==> forall j :: r < j < |s| ==> s[j].id != t) &&
      (r == -1 <==> !HasId(s, t))
    decreases |s|
  {
    if s != [] && s[|s| - 1].id != t {
      var p := s[..|s| - 1];
      ScanTargetIsLast(p, t);
      if !HasId(p, t) {
        forall k | 0 <= k < |s|
          ensures s[k].id != t
        {
          if k < |p| {
            assert s[k] == p[k];
          }
        }
      } else {
        var k :| 0 <= k < |p| && p[k].id == t;
        assert s[k] == p[k];
      }
    }
  }

  /** The scan's ingredient: the position of the LAST item whose identifier is
      `i` and is not `t` (an item matching `t` is taken as the target first),
      or -1. */
  function ScanIngredient(s: seq<ItemValue>, t: int, i: int): (r: int)
    ensures -1 <= r < |s|
    ensures r >= 0 ==> s[r].id == i && i != t
    decreases |s|
  {
    if s == [] then -1
    else if s[|s| - 1].id != t && s[|s| - 1].id == i then |s| - 1
    else ScanIngredient(s[..|s| - 1], t, i)
  }

  /** The scan's ingredient is the last item with identifier `i`; it is
      missing exactly when `i` equals the target identifier or no item has
      identifier `i`. */
  lemma {:induction false} ScanIngredientIsLast(s: seq<ItemValue>, t: int, i: int)
    ensures var r := ScanIngredient(s, t, i);
      (r >= 0 ==> forall j :: r < j < |s| ==> s[j].id != i) &&
      (r == -1 <==> (i == t || !HasId(s, i)))
    decreases |s|
  {
    if s != [] && !(s[|s| - 1].id != t && s[|s| - 1].id == i) {
      var p := s[..|s| - 1];
      ScanIngredientIsLast(p, t, i);
      if i == t {
      } else if !HasId(p, i) {
        forall k | 0 <= k < |s|
          ensures s[k].id != i
        {
          if k < |p| {
            assert s[k] == p[k];
          }
        }
      } else {
        var k :| 0 <= k < |p| && p[k].id == i;
        assert s[k] == p[k];
      }
    }
  }

  /** The target after synthesis: one rank step and the identifier
      max(t, i) + 1; its level, name and category are kept. */
  function Synthesized(v: ItemValue, t: int, i: int): ItemValue
  {
    v.(rank := NextRank(v.rank), id := Max(t, i) + 1)
  }

  /** ItemSynthesis(t, i): rejected (None) unless the scan found a target
      whose identifier is not -1 and an ingredient; otherwise the target is
      synthesized in place and the ingredient removed. */
  function Synthesize(s: seq<ItemValue>, t: int, i: int): Option<seq<ItemValue>>
  {
    var a := ScanTarget(s, t);
    var b := ScanIngredient(s, t, i);
    if a == -1 || t == -1 || b == -1 then None
    else Some(RemoveAt(s[a := Synthesized(s[a], t, i)], b))
  }

  /** Synthesis is accepted exactly when the two identifiers differ, the
      target identifier is not -1, and both identifiers occur. */
  lemma SynthesizeAcceptedIff(s: seq<ItemValue>, t: int, i: int)
    ensures Synthesize(s, t, i).Some? <==> t != i && t != -1 && HasId(s, t) && HasId(s, i)
  {
    ScanTargetIsLast(s, t);
    ScanIngredientIsLast(s, t, i);
  }

  /** An item cannot be synthesized with itself: equal identifiers are
      always rejected, however many items carry them. */
  lemma SelfSynthesisRejected(s: seq<ItemValue>, t: int)
    ensures Synthesize(s, t, t) == None
  {
  }

  /** An accepted synthesis makes the list one item shorter and keeps every
      item other than the target and the ingredient, in order; the target is
      the last item with identifier `t` and the ingredient the last with `i`. */
  lemma SynthesizeShape(s: seq<ItemValue>, t: int, i: int)
    requires Synthesize(s, t, i).Some?
    ensures |Synthesize(s, t, i).value| == |s| - 1
    ensures var a, b := ScanTarget(s, t), ScanIngredient(s, t, i);
      0 <= a < |s| && 0 <= b < |s| && a != b &&
      s[a].id == t && s[b].id == i &&
      (forall j :: a < j < |s| ==> s[j].id != t) &&
      (forall j :: b < j < |s| ==> s[j].id != i) &&
      (forall j :: 0 <= j < |s| - 1 ==>
         var src := if j < b then j else j + 1;
         Synthesize(s, t, i).value[j] == if src == a then Synthesized(s[a], t, i) else s[src])
  {
    ScanTargetIsLast(s, t);
    ScanIngredientIsLast(s, t, i);
  }

  /** With unique identifiers, any positions `a` and `b` holding the two
      (distinct, target not -1) identifiers are where synthesis acts: the
      target at `a` is synthesized in place and the item at `b` removed. The
      result is one item shorter, the target (one place further left when the
      ingredient came before it) has one more rank and the identifier
      max(t, i) + 1, and no item keeps the ingredient's identifier. */
  lemma SynthesizeUnique(s: seq<ItemValue>, t: int, i: int, a: nat, b: nat)
    requires UniqueIds(s)
    requires a < |s| && s[a].id == t && t != -1
    requires b < |s| && s[b].id == i && t != i
    ensures Synthesize(s, t, i) == Some(RemoveAt(s[a := Synthesized(s[a], t, i)], b))
    ensures var r := Synthesize(s, t, i).value;
      |r| == |s| - 1 &&
      r[if b < a then a - 1 else a] == s[a].(rank := NextRank(s[a].rank), id := Max(t, i) + 1) &&
      !HasId(r, i)
  {
    ScanTargetIsLast(s, t);
    ScanIngredientIsLast(s, t, i);
    assert ScanTarget(s, t) == a;
    assert ScanIngredient(s, t, i) == b;
    var r := Synthesize(s, t, i).value;
    forall j | 0 <= j < |r|
      ensures r[j].id != i
    {
      var src := if j < b then j else j + 1;
      assert src != b;
      if src == a {
        assert r[j].id == Max(t, i) + 1;
      } else {
        assert r[j] == s[src];
      }
    }
  }

  /** Identifiers stay unique through a synthesis exactly as far as the new
      identifier max(t, i) + 1 is not already taken. */
  lemma SynthesizeKeepsUniqueIds(s: seq<ItemValue>, t: int, i: int)
    requires UniqueIds(s) && !HasId(s, Max(t, i) + 1)
    requires Synthesize(s, t, i).Some?
    ensures UniqueIds(Synthesize(s, t, i).value)
  {
  }

  /** The new identifier is not checked against the others: from the unique
      identifiers 1, 2, 3, synthesizing 1 with 2 renumbers the target to 3,
      which the untouched third item already carries. */
  lemma SynthesizeMayDuplicateIds()
    ensures var s := [ItemValue(1, "", 1, 'C', Plain), ItemValue(2, "", 1, 'C', Plain),
                      ItemValue(3, "", 1, 'C', Plain)];
      UniqueIds(s) && Synthesize(s, 1, 2).Some? &&
      Synthesize(s, 1, 2).value[0].id == 3 && Synthesize(s, 1, 2).value[1].id == 3 &&
      !UniqueIds(Synthesize(s, 1, 2).value)
  {
    var s := [ItemValue(1, "", 1, 'C', Plain), ItemValue(2, "", 1, 'C', Plain),
              ItemValue(3, "", 1, 'C', Plain)];
    SynthesizeUnique(s, 1, 2, 0, 1);
    var r := Synthesize(s, 1, 2).value;
    assert r[1] == s[2];
  }
}
