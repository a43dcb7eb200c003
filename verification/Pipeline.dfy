/** From the cells of an object to the text that is read back: the whole printing pipeline. */
module Pipeline {
  import opened Text
  import opened Layout
  import opened Printer
  import opened Values
  import opened RoundTrip
  import opened Conses
  import opened Unfolding

  /** Whatever the graph of its cells, what is printed for an object reads back, at every width, as the
      value that the graph unfolds to, exactly if each atom of it has a text of its own and no list in
      it is spelled like an entity. */
  lemma ObjectReadsBack(w: char -> nat, h: Heap, x: Obj)
    ensures var v := Unfold(h, x, 0);
            && (RoundTrips(w, v) <==> AtomsPrintable(v) && Exact(v, 0))
            && (AtomsPrintable(v) ==>
                  && OnEvents(Fresh, Events(v)).Accepted?
                  && Print(w, OnEvents(Fresh, Events(v)).toks) == Some(Render(w, DocOf(v, 0), false, 0).text + "\n"))
  {
    var v := Unfold(h, x, 0);
    UnfoldPrints(h, x, 0);
    RoundTripExactly(w, v);
    PrintsDocument(w, v);
  }
}
