/** The home screen's previous-appointments list: the per-id rating and
    favourite updaters, and the effect that re-derives every favourite flag
    from the shared favourites list. */
module Home {
  import opened Js
  import opened Favourites

  datatype PreviousAppointment = PreviousAppointment(
    id: string, doctorId: string, doctorName: string, specialty: string,
    kind: string, time: string, date: string, isFavourite: bool, rating: int)

  /** The doctor `handleToggleFavourite` hands to `toggleFavourite`. */
  function DoctorOf(appointment: PreviousAppointment): (d: Doctor)
    ensures d.id == appointment.doctorId && d.name == appointment.doctorName
    ensures d.specialty == appointment.specialty && d.image == ""
  {
    Doctor(appointment.doctorId, appointment.doctorName, appointment.specialty, "")
  }

  /** The local updater of `handleToggleFavourite`: the flag flips on the
      entries with the given id; everything else stays as it was. */
  function FlipFavourite(appointments: seq<PreviousAppointment>, id: string): (r: seq<PreviousAppointment>)
    ensures |r| == |appointments|
    ensures forall i | 0 <= i < |r| ::
              r[i].(isFavourite := appointments[i].isFavourite) == appointments[i] &&
              (r[i].isFavourite <==> (appointments[i].id == id) != appointments[i].isFavourite)
  {
    seq(|appointments|, i requires 0 <= i < |appointments| =>
      if appointments[i].id == id then appointments[i].(isFavourite := !appointments[i].isFavourite)
      else appointments[i])
  }

  /** Flipping the same id twice restores the list. */
  lemma FlipTwiceRestores(appointments: seq<PreviousAppointment>, id: string)
    ensures FlipFavourite(FlipFavourite(appointments, id), id) == appointments
  {
  }

  /** `handleRating(id, rating)`: the rating of the entries with that id is
      replaced; every other field and entry, and the length, stay. */
  function Rate(appointments: seq<PreviousAppointment>, id: string, rating: int): (r: seq<PreviousAppointment>)
    ensures |r| == |appointments|
    ensures forall i | 0 <= i < |r| ::
              r[i].(rating := appointments[i].rating) == appointments[i] &&
              r[i].rating == (if appointments[i].id == id then rating else appointments[i].rating)
  {
    seq(|appointments|, i requires 0 <= i < |appointments| =>
      if appointments[i].id == id then appointments[i].(rating := rating) else appointments[i])
  }

  /** The last rating given to an appointment is the one it keeps. */
  lemma LastRatingWins(appointments: seq<PreviousAppointment>, id: string, r1: int, r2: int)
    ensures Rate(Rate(appointments, id, r1), id, r2) == Rate(appointments, id, r2)
  {
  }

  /** The star `star` (1 to 5) is drawn filled exactly when `rating >= star`. */
  predicate StarFilled(rating: int, star: int) {
    rating >= star
  }

  /** The row shows `rating` filled stars, clamped to the five drawn. */
  lemma FilledStars(rating: int)
    ensures |Filter(star => StarFilled(rating, star), [1, 2, 3, 4, 5])| ==
            if rating < 0 then 0 else if rating > 5 then 5 else rating
  {
    var p := star => StarFilled(rating, star);
    var stars: seq<int> := [1, 2, 3, 4, 5];
    FilterLengthStep(p, stars);
    FilterLengthStep(p, stars[1..]);
    FilterLengthStep(p, stars[2..]);
    FilterLengthStep(p, stars[3..]);
    FilterLengthStep(p, stars[4..]);
    assert stars[4..][1..] == [];
  }

  lemma FilterLengthStep(p: int -> bool, s: seq<int>)
    requires s != []
    ensures |Filter(p, s)| == (if p(s[0]) then 1 else 0) + |Filter(p, s[1..])|
  {
  }

  /** The effect run whenever the favourites change: each entry's flag
      becomes whether its doctor is among the favourites. */
  function SyncFavourites(appointments: seq<PreviousAppointment>, favourites: seq<Doctor>): (r: seq<PreviousAppointment>)
    ensures |r| == |appointments|
    ensures forall i | 0 <= i < |r| ::
              r[i].(isFavourite := appointments[i].isFavourite) == appointments[i] &&
              (r[i].isFavourite <==> HasId(favourites, appointments[i].doctorId))
  {
    seq(|appointments|, i requires 0 <= i < |appointments| =>
      appointments[i].(isFavourite := HasId(favourites, appointments[i].doctorId)))
  }

  predicate Synced(appointments: seq<PreviousAppointment>, favourites: seq<Doctor>) {
    forall i | 0 <= i < |appointments| :: appointments[i].isFavourite <==> HasId(favourites, appointments[i].doctorId)
  }

  /** `handleToggleFavourite(appointment)`: the shared list is toggled and the
      local flag flipped. On a list in sync, the local flip and the effect
      that follows agree on every entry the handler touched, and the effect
      also brings every other appointment with that doctor into line. */
  lemma HandlerAgreesWithSync(appointments: seq<PreviousAppointment>, favourites: seq<Doctor>, appointment: PreviousAppointment)
    requires Synced(appointments, favourites)
    ensures var favourites' := Toggle(favourites, DoctorOf(appointment));
            var flipped := FlipFavourite(appointments, appointment.id);
            var synced := SyncFavourites(flipped, favourites');
            Synced(synced, favourites') &&
            forall i | 0 <= i < |appointments| && appointments[i].id == appointment.id && appointments[i].doctorId == appointment.doctorId ::
              flipped[i] == synced[i]
  {
    var favourites' := Toggle(favourites, DoctorOf(appointment));
    assert HasId(favourites', appointment.doctorId) <==> !HasId(favourites, appointment.doctorId);
  }
}
