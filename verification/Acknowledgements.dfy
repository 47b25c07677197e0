/** What each request has been told, out of everything that was sent. */
module Acknowledgements {
  datatype Ack<S> = Ack(id: int, status: S)

  function Told<S>(acks: seq<Ack<S>>, id: int): seq<S> {
    if acks == [] then []
    else
      var before := Told(acks[..|acks| - 1], id);
      if acks[|acks| - 1].id == id then before + [acks[|acks| - 1].status] else before
  }

  lemma ToldPlus<S>(acks: seq<Ack<S>>, ack: Ack<S>)
    ensures forall id :: Told(acks + [ack], id) == if ack.id == id then Told(acks, id) + [ack.status] else Told(acks, id)
  {
    assert (acks + [ack])[..|acks|] == acks;
  }
}
