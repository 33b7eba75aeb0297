/** The public packages page: the realtime INSERT / UPDATE / DELETE reducer
    over the package list and the duration label. */
module PublicPackages {
  import opened Text
  import opened Seqs

  /** A row of `packages`; the price is carried, never computed with. */
  datatype Package = Package(
    id: string, name: string, duration: string, price: int,
    features: seq<string>, isPopular: bool, createdAt: string)

  /** A realtime change payload: the new row, or the old row's id. */
  datatype Change = Insert(row: Package) | Update(row: Package) | Delete(oldId: string)

  /** INSERT: the row is appended, with no duplicate check and no re-sort. */
  function Inserted(ps: seq<Package>, row: Package): (r: seq<Package>)
    ensures |r| == |ps| + 1 && r[..|ps|] == ps && r[|ps|] == row
    ensures multiset(r) == multiset(ps) + multiset{row}
  {
    ps + [row]
  }

  /** UPDATE: every entry with the row's id is replaced by the row. */
  function Updated(ps: seq<Package>, row: Package): (r: seq<Package>)
    ensures |r| == |ps|
    ensures forall i :: 0 <= i < |ps| ==> r[i].id == ps[i].id
    ensures forall i :: 0 <= i < |ps| && ps[i].id != row.id ==> r[i] == ps[i]
    ensures forall i :: 0 <= i < |ps| && ps[i].id == row.id ==> r[i] == row
  {
    seq(|ps|, i requires 0 <= i < |ps| => if ps[i].id == row.id then row else ps[i])
  }

  /** DELETE: every entry with the old row's id is removed. */
  function Deleted(ps: seq<Package>, oldId: string): (r: seq<Package>)
    ensures forall i :: 0 <= i < |r| ==> r[i].id != oldId
    ensures forall p :: p in ps && p.id != oldId ==> p in r
    ensures Subseq(r, ps)
  {
    FilterIsSubseq(ps, (p: Package) => p.id != oldId);
    Filter(ps, (p: Package) => p.id != oldId)
  }

  /** The subscription callback's update of the list: an INSERT appends its
      row, an UPDATE replaces in place every entry with its id, a DELETE drops
      every entry with its id and keeps the rest in order. */
  function Apply(ps: seq<Package>, c: Change): (r: seq<Package>)
    ensures c.Insert? ==> |r| == |ps| + 1 && r[..|ps|] == ps && r[|ps|] == c.row
    ensures c.Update? ==> |r| == |ps|
    ensures c.Update? ==> forall i :: 0 <= i < |ps| ==> r[i] == (if ps[i].id == c.row.id then c.row else ps[i])
    ensures c.Delete? ==> Subseq(r, ps) && forall i :: 0 <= i < |r| ==> r[i].id != c.oldId
    ensures c.Delete? ==> forall p :: p in ps && p.id != c.oldId ==> p in r
  {
    match c
    case Insert(row) => Inserted(ps, row)
    case Update(row) => Updated(ps, row)
    case Delete(id) => Deleted(ps, id)
  }

  /** An INSERT of a package already listed lists it twice. */
  lemma InsertKeepsDuplicates(ps: seq<Package>, row: Package)
    requires row in ps
    ensures multiset(Apply(ps, Insert(row)))[row] == multiset(ps)[row] + 1
    ensures multiset(Apply(ps, Insert(row)))[row] >= 2
  {
  }

  /** An UPDATE whose id is not listed changes nothing. */
  lemma UpdateOfAbsentIdIsNoop(ps: seq<Package>, row: Package)
    requires forall i :: 0 <= i < |ps| ==> ps[i].id != row.id
    ensures Apply(ps, Update(row)) == ps
  {
  }

  /** Applying the same UPDATE twice is the same as applying it once. */
  lemma UpdateIdempotent(ps: seq<Package>, row: Package)
    ensures Apply(Apply(ps, Update(row)), Update(row)) == Apply(ps, Update(row))
  {
  }

  /** A DELETE whose id is not listed changes nothing. */
  lemma DeleteOfAbsentIdIsNoop(ps: seq<Package>, oldId: string)
    requires forall i :: 0 <= i < |ps| ==> ps[i].id != oldId
    ensures Apply(ps, Delete(oldId)) == ps
  {
    FilterKeepsAll(ps, (p: Package) => p.id != oldId);
  }

  /** A DELETE removes exactly the entries carrying its id. */
  lemma {:induction false} DeleteCount(ps: seq<Package>, oldId: string)
    ensures |Apply(ps, Delete(oldId))| == |ps| - Count(ps, (p: Package) => p.id == oldId)
    decreases |ps|
  {
    if ps != [] {
      DeleteCount(ps[1..], oldId);
    }
  }

  /** An UPDATE after an INSERT of the same id replaces the inserted row too. */
  lemma InsertThenUpdate(ps: seq<Package>, row: Package, row2: Package)
    requires row2.id == row.id
    ensures Apply(Apply(ps, Insert(row)), Update(row2)) == Apply(ps, Update(row2)) + [row2]
  {
  }

  /** The duration label table, keyed by the lower-cased duration. */
  function KnownLabel(key: string): string {
    if key == "monthly" then "per month"
    else if key == "quarterly" then "per quarter"
    else if key == "yearly" then "per year"
    else if key == "weekly" then "per week"
    else ""
  }

  /** `getDurationLabel`: the table's label for the lower-cased duration, or
      "per " and the duration as given. */
  function DurationLabel(duration: string): (text: string)
    ensures KnownLabel(ToLower(duration)) != "" ==> text == KnownLabel(ToLower(duration))
    ensures KnownLabel(ToLower(duration)) == "" ==> text == "per " + duration
    ensures text[..4] == "per "
  {
    var known := KnownLabel(ToLower(duration));
    if known != "" then known else "per " + duration
  }

  /** The four known durations, in any letter case, map to their fixed labels. */
  lemma DurationLabelsIgnoreCase(d: string)
    ensures ToLower(d) == "monthly" ==> DurationLabel(d) == "per month"
    ensures ToLower(d) == "quarterly" ==> DurationLabel(d) == "per quarter"
    ensures ToLower(d) == "yearly" ==> DurationLabel(d) == "per year"
    ensures ToLower(d) == "weekly" ==> DurationLabel(d) == "per week"
    ensures DurationLabel(d) == DurationLabel(ToLower(d)) || DurationLabel(d) == "per " + d
  {
    assert ToLower(ToLower(d)) == ToLower(d);
  }

  /** Examples: "Monthly" is known, "Daily" keeps its casing. */
  lemma DurationLabelExamples()
    ensures DurationLabel("Monthly") == "per month"
    ensures DurationLabel("Daily") == "per Daily"
  {
    assert ToLower("Monthly") == "monthly";
    assert ToLower("Daily") == "daily";
  }
}
