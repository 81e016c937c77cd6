/**
 * The reply to the POP3 `UIDL` command (section 7 of RFC 1939) as the mailbox
 * watcher reads it: each line "<number> <uid>" gives the session-local
 * message number of one message and its unique id.
 */
module Uidl {
  import opened Wrappers
  import opened Text

  /** What one listing line contributes. */
  datatype Entry =
    | Short                         // fewer than two space-separated fields: skipped
    | BadNumber                     // the first field is not an integer: `int()` raises
    | Listed(uid: string, num: int) // the second field, keyed to the first one's value

  /**
   * How the reader treats one line: the number is the text before the first
   * space, the UID the text between the first and the second space.
   */
  function Classify(line: string): Entry
  {
    if ' ' !in line then Short
    else
      var i := IndexOf(line, ' ');
      match ParseInt(line[..i])
      case None => BadNumber
      case Some(num) => Listed(Before(line[i + 1..], ' '), num)
  }

  /**
   * `Classify` is the reader's `parts = line.split(' ')`: fewer than two parts
   * is skipped, otherwise `int(parts[0])` keys `parts[1]`.
   */
  lemma ClassifySplit(line: string)
    ensures var parts := Split(line, ' ');
      && (Classify(line).Short? <==> |parts| < 2)
      && (|parts| >= 2 ==> (Classify(line).BadNumber? <==> ParseInt(parts[0]).None?))
      && (Classify(line).Listed? ==> ParseInt(parts[0]) == Some(Classify(line).num) && Classify(line).uid == parts[1])
  {
    if ' ' in line {
      SplitFields(line, ' ');
    }
  }

  /** The watcher's result: the set of UIDs and the UID to number map. */
  datatype UidList = UidList(uids: set<string>, numbers: map<string, int>)

  /** The entries of a listing, line by line. */
  function Entries(lines: seq<string>): (es: seq<Entry>)
    ensures |es| == |lines| && forall i :: 0 <= i < |lines| ==> es[i] == Classify(lines[i])
  {
    if lines == [] then [] else [Classify(lines[0])] + Entries(lines[1..])
  }

  /**
   * The map that the entries build on top of `acc`, one after the other, a
   * later entry overwriting an earlier one with the same UID; `None` as soon
   * as one entry is a `BadNumber`.
   */
  function Fold(es: seq<Entry>, acc: map<string, int>): Option<map<string, int>>
  {
    if es == [] then Some(acc)
    else
      match es[0]
      case Short => Fold(es[1..], acc)
      case BadNumber => None
      case Listed(uid, num) => Fold(es[1..], acc[uid := num])
  }

  /** The map a whole listing yields, or `None` when reading it raises. */
  function Numbers(lines: seq<string>): Option<map<string, int>>
  {
    Fold(Entries(lines), map[])
  }

  /** Entry `i` is a well-formed line for `uid`. */
  ghost predicate ListsUid(es: seq<Entry>, i: int, uid: string) {
    0 <= i < |es| && es[i].Listed? && es[i].uid == uid
  }

  lemma ShiftListsUid(es: seq<Entry>, i: nat, uid: string)
    requires |es| > 0
    ensures ListsUid(es[1..], i, uid) <==> ListsUid(es, i + 1, uid)
  {
  }

  lemma {:induction false} FoldFails(es: seq<Entry>, acc: map<string, int>)
    ensures Fold(es, acc).None? <==> exists i :: 0 <= i < |es| && es[i].BadNumber?
  {
    if es != [] {
      var acc' := if es[0].Listed? then acc[es[0].uid := es[0].num] else acc;
      FoldFails(es[1..], acc');
      assert forall i :: 1 <= i < |es| ==> es[i] == es[1..][i - 1];
    }
  }

  lemma {:induction false} FoldKeys(es: seq<Entry>, acc: map<string, int>, uid: string)
    requires Fold(es, acc).Some?
    ensures uid in Fold(es, acc).value <==> uid in acc || exists i :: ListsUid(es, i, uid)
  {
    if es != [] {
      forall i: nat { ShiftListsUid(es, i, uid); }
      assert forall i :: ListsUid(es, i, uid) ==> i == 0 || ListsUid(es[1..], i - 1, uid);
      match es[0]
      case Short =>
        FoldKeys(es[1..], acc, uid);
      case Listed(u, num) =>
        FoldKeys(es[1..], acc[u := num], uid);
        if u == uid { assert ListsUid(es, 0, uid); }
    }
  }

  lemma {:induction false} FoldUntouched(es: seq<Entry>, acc: map<string, int>, uid: string)
    requires Fold(es, acc).Some? && uid in acc
    requires forall i :: !ListsUid(es, i, uid)
    ensures uid in Fold(es, acc).value && Fold(es, acc).value[uid] == acc[uid]
  {
    if es != [] {
      forall i: nat ensures !ListsUid(es[1..], i, uid) { ShiftListsUid(es, i, uid); }
      assert !ListsUid(es, 0, uid);
      match es[0]
      case Short => FoldUntouched(es[1..], acc, uid);
      case Listed(u, num) => FoldUntouched(es[1..], acc[u := num], uid);
    }
  }

  lemma {:induction false} FoldLastWins(es: seq<Entry>, acc: map<string, int>, i: nat, uid: string, num: int)
    requires Fold(es, acc).Some?
    requires i < |es| && es[i] == Listed(uid, num)
    requires forall j :: i < j ==> !ListsUid(es, j, uid)
    ensures uid in Fold(es, acc).value && Fold(es, acc).value[uid] == num
  {
    forall j: nat ensures !ListsUid(es[1..], j, uid) || j + 1 <= i {
      ShiftListsUid(es, j, uid);
    }
    if i == 0 {
      FoldUntouched(es[1..], acc[uid := num], uid);
    } else {
      match es[0]
      case Short => FoldLastWins(es[1..], acc, i - 1, uid, num);
      case Listed(u, n) => FoldLastWins(es[1..], acc[u := n], i - 1, uid, num);
    }
  }

  /** Reading a listing raises exactly when some line has two fields and a non-numeric first one. */
  lemma ListingFails(lines: seq<string>)
    ensures Numbers(lines).None? <==> exists i :: 0 <= i < |lines| && Classify(lines[i]).BadNumber?
  {
    FoldFails(Entries(lines), map[]);
  }

  /** The UIDs read are exactly the UIDs of the well-formed lines. */
  lemma ListingKeys(lines: seq<string>, uid: string)
    requires Numbers(lines).Some?
    ensures uid in Numbers(lines).value <==> exists i :: 0 <= i < |lines| && Classify(lines[i]).Listed? && Classify(lines[i]).uid == uid
  {
    FoldKeys(Entries(lines), map[], uid);
    assert forall i :: ListsUid(Entries(lines), i, uid) <==> 0 <= i < |lines| && Classify(lines[i]).Listed? && Classify(lines[i]).uid == uid;
  }

  /** A repeated UID keeps the number of its last well-formed line. */
  lemma ListingLastWins(lines: seq<string>, i: nat, uid: string, num: int)
    requires Numbers(lines).Some?
    requires i < |lines| && Classify(lines[i]) == Listed(uid, num)
    requires forall j :: i < j < |lines| ==> !(Classify(lines[j]).Listed? && Classify(lines[j]).uid == uid)
    ensures uid in Numbers(lines).value && Numbers(lines).value[uid] == num
  {
    var es := Entries(lines);
    assert forall j :: i < j ==> !ListsUid(es, j, uid);
    FoldLastWins(es, map[], i, uid, num);
  }

  /** One step of the fold over a listing's entries, from line `i`. */
  lemma FoldNext(lines: seq<string>, i: nat, acc: map<string, int>)
    requires i < |lines|
    ensures Fold(Entries(lines)[i..], acc) ==
      match Classify(lines[i])
      case Short => Fold(Entries(lines)[i + 1..], acc)
      case BadNumber => None
      case Listed(uid, num) => Fold(Entries(lines)[i + 1..], acc[uid := num])
  {
    assert Entries(lines)[i..][1..] == Entries(lines)[i + 1..];
  }

  /**
   * `obtener_lista_uids_con_mapa`: one pass over the listing that adds each
   * well-formed line's UID to a set and records its number in a map; a
   * non-numeric number field raises, here `None`.
   */
  method ReadListing(items: seq<string>) returns (r: Option<UidList>)
    ensures r.None? <==> Numbers(items).None?
    ensures r.Some? ==> r.value.numbers == Numbers(items).value && r.value.uids == r.value.numbers.Keys
  {
    var uids: set<string> := {};
    var uidMap: map<string, int> := map[];
    var i := 0;
    while i < |items|
      invariant 0 <= i <= |items|
      invariant uids == uidMap.Keys
      invariant Fold(Entries(items)[i..], uidMap) == Numbers(items)
    {
      FoldNext(items, i, uidMap);
      match Classify(items[i]) {
        case Short =>
        case BadNumber =>
          return None;
        case Listed(uid, num) =>
          assert uidMap[uid := num].Keys == uidMap.Keys + {uid};
          uids := uids + {uid};
          uidMap := uidMap[uid := num];
      }
      i := i + 1;
    }
    return Some(UidList(uids, uidMap));
  }
}
