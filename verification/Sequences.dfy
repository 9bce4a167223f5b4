/** Sequences of sequences, used wherever a whole is cut into pieces. */
module Sequences {

  function Flatten<T>(pieces: seq<seq<T>>): seq<T> {
    if pieces == [] then [] else pieces[0] + Flatten(pieces[1..])
  }

  lemma {:induction false} FlattenMore<T>(pieces: seq<seq<T>>, i: nat)
    requires i < |pieces|
    ensures Flatten(pieces[..i + 1]) == Flatten(pieces[..i]) + pieces[i]
  {
    if i == 0 {
      assert pieces[..1] == [pieces[0]] && Flatten([pieces[0]]) == pieces[0] + Flatten([pieces[0]][1..]);
    } else {
      FlattenMore(pieces[1..], i - 1);
      assert pieces[..i + 1][1..] == pieces[1..][..i] && pieces[..i][1..] == pieces[1..][..i - 1];
    }
  }
}
