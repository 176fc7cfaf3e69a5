/** A Python `list[str]` that is changed in place by the code it is
    passed to. */
module TextLists {
  class TextList {
    var items: seq<string>

    constructor (items: seq<string>)
      ensures this.items == items
    {
      this.items := items;
    }

    /** `list.insert(i, x)`: an index past the end appends. */
    method Insert(i: nat, x: string)
      modifies this
      ensures i <= |old(items)| ==> items == old(items)[..i] + [x] + old(items)[i..]
      ensures i > |old(items)| ==> items == old(items) + [x]
    {
      if i <= |items| {
        items := items[..i] + [x] + items[i..];
      } else {
        items := items + [x];
      }
    }

    /** `list.append(x)`. */
    method Append(x: string)
      modifies this
      ensures items == old(items) + [x]
    {
      items := items + [x];
    }
  }
}
