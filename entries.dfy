/** Entries of the todo list: the value of one entry and the mutable
    ListEntry object the command engine keeps in its list. */
module Entries {

  /** The value of one list entry: a single-line title and a free-form body. */
  datatype Entry = Entry(title: string, data: string)

  /** A list entry whose title and body are replaced in place. */
  class ListEntry {
    var title: string
    var data: string

    constructor (title: string, data: string)
      ensures this.title == title && this.data == data
    {
      this.title := title;
      this.data := data;
    }

    /** The value this entry currently holds. */
    function Value(): Entry
      reads this
    {
      Entry(title, data)
    }

    /** Replaces the title; the body is kept. */
    method SetTitle(newTitle: string)
      modifies this`title
      ensures title == newTitle && data == old(data)
    {
      title := newTitle;
    }

    /** Replaces the body; the title is kept. */
    method SetData(newData: string)
      modifies this`data
      ensures data == newData && title == old(title)
    {
      data := newData;
    }

    /** The factory the engine uses to create entries: a new object,
        shared with no one, holding the given title and body. */
    static method NewEntry(title: string, data: string) returns (e: ListEntry)
      ensures fresh(e)
      ensures e.Value() == Entry(title, data)
    {
      e := new ListEntry(title, data);
    }
  }

  /** The values held by a list of entry objects, in list order. */
  function Values(es: seq<ListEntry>): (vs: seq<Entry>)
    reads set e | e in es
    ensures |vs| == |es|
    ensures forall i :: 0 <= i < |es| ==> vs[i] == Entry(es[i].title, es[i].data)
  {
    seq(|es|, i requires 0 <= i < |es| reads es => es[i].Value())
  }

  /** No entry object occurs twice in the list. */
  predicate Distinct(es: seq<ListEntry>) {
    forall i, j :: 0 <= i < j < |es| ==> es[i] != es[j]
  }

  /** Removing the object at k removes the value at k and keeps the
      objects distinct. */
  lemma RemoveAt(es: seq<ListEntry>, k: nat)
    requires k < |es| && Distinct(es)
    ensures Distinct(es[..k] + es[k + 1..])
    ensures Values(es[..k] + es[k + 1..]) == Values(es)[..k] + Values(es)[k + 1..]
  {
    var rest := es[..k] + es[k + 1..];
    assert forall i :: 0 <= i < |rest| ==> rest[i] == es[if i < k then i else i + 1];
  }
}
