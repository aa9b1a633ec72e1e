/** The shared favourite-doctors list and its toggle. */
module Favourites {
  import opened Js

  datatype Doctor = Doctor(id: string, name: string, specialty: string, image: string)

  /** `favourites.some(d => d.id === id)`. */
  predicate HasId(favourites: seq<Doctor>, id: string) {
    exists d :: d in favourites && d.id == id
  }

  predicate UniqueIds(favourites: seq<Doctor>) {
    forall i, j | 0 <= i < j < |favourites| :: favourites[i].id != favourites[j].id
  }

  /** The filter callback `d => d.id !== id`. */
  function Without(id: string): Doctor -> bool {
    (d: Doctor) => d.id != id
  }

  /** `toggleFavourite(doctor)`: a doctor whose id is already listed is
      removed together with every entry of that id; otherwise the doctor is
      appended. */
  function Toggle(favourites: seq<Doctor>, doctor: Doctor): (r: seq<Doctor>)
    ensures HasId(favourites, doctor.id) ==> !HasId(r, doctor.id) && IsSubsequence(r, favourites)
    ensures HasId(favourites, doctor.id) ==> forall d :: d in r <==> d in favourites && d.id != doctor.id
    ensures !HasId(favourites, doctor.id) ==> r == favourites + [doctor]
    ensures HasId(r, doctor.id) <==> !HasId(favourites, doctor.id)
  {
    if HasId(favourites, doctor.id) then
      FilterIsSubsequence(Without(doctor.id), favourites);
      Filter(Without(doctor.id), favourites)
    else
      assert doctor in favourites + [doctor];
      favourites + [doctor]
  }

  /** Toggling an absent doctor twice gives back the original list. */
  lemma ToggleTwiceRestores(favourites: seq<Doctor>, doctor: Doctor)
    requires !HasId(favourites, doctor.id)
    ensures Toggle(Toggle(favourites, doctor), doctor) == favourites
  {
    var keep := Without(doctor.id);
    FilterAppend(keep, favourites, [doctor]);
    FilterKeepsAll(keep, favourites);
  }

  lemma {:induction false} FilterIdempotent<T(!new)>(p: T -> bool, s: seq<T>)
    ensures Filter(p, Filter(p, s)) == Filter(p, s)
  {
    if s != [] {
      FilterIdempotent(p, s[1..]);
      if p(s[0]) {
        var r := Filter(p, s);
        assert r == [s[0]] + Filter(p, s[1..]);
        assert r[0] == s[0] && r[1..] == Filter(p, s[1..]);
        assert Filter(p, r) == [r[0]] + Filter(p, r[1..]);
      } else {
        assert Filter(p, s) == [] + Filter(p, s[1..]) == Filter(p, s[1..]);
      }
    }
  }

  /** The entries whose id differs from the toggled doctor's are the same,
      in the same order, before and after the toggle. */
  lemma OthersKeepOrder(favourites: seq<Doctor>, doctor: Doctor)
    ensures Filter(Without(doctor.id), Toggle(favourites, doctor)) == Filter(Without(doctor.id), favourites)
  {
    var keep := Without(doctor.id);
    if HasId(favourites, doctor.id) {
      FilterIdempotent(keep, favourites);
    } else {
      FilterAppend(keep, favourites, [doctor]);
      assert Filter(keep, [doctor]) == [];
    }
  }

  lemma {:induction false} FilterKeepsUniqueIds(p: Doctor -> bool, s: seq<Doctor>)
    requires UniqueIds(s)
    ensures UniqueIds(Filter(p, s))
  {
    if s != [] {
      FilterKeepsUniqueIds(p, s[1..]);
      var rest := Filter(p, s[1..]);
      assert forall d | d in rest :: d in s[1..];
      assert forall d | d in s[1..] :: d.id != s[0].id;
    }
  }

  /** A list without repeated ids keeps that property under any toggle. */
  lemma TogglePreservesUniqueIds(favourites: seq<Doctor>, doctor: Doctor)
    requires UniqueIds(favourites)
    ensures UniqueIds(Toggle(favourites, doctor))
  {
    if HasId(favourites, doctor.id) {
      FilterKeepsUniqueIds(Without(doctor.id), favourites);
    } else {
      var r := favourites + [doctor];
      forall i, j | 0 <= i < j < |r|
        ensures r[i].id != r[j].id
      {
        if j == |favourites| {
          assert r[i] in favourites;
        }
      }
    }
  }
}
