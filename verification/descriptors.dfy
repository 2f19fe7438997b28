/** The three descriptor kinds the operators combine. In the library they
    carry rendering details (row types, tags, values, titles); here only the
    parts the operators read or change are kept: a section's ordered rows and
    its optional header and footer titles, and a form's ordered sections.
    All three are reference objects: the operators mutate them in place and
    return live references, never copies. */
module Descriptors {
  import Layout

  datatype Option<T> = None | Some(value: T)

  /** One field of a form. Opaque to the operators: only its identity matters. */
  class Row {
    constructor ()
    {
    }
  }

  /** A section: an ordered sequence of rows plus optional header and footer titles. */
  class Section {
    var headerTitle: Option<string>
    var footerTitle: Option<string>
    var rows: seq<Row>

    /** A section with the given titles and no rows yet. */
    constructor (headerTitle: Option<string>, footerTitle: Option<string>)
      ensures this.headerTitle == headerTitle && this.footerTitle == footerTitle
      ensures rows == []
    {
      this.headerTitle := headerTitle;
      this.footerTitle := footerTitle;
      rows := [];
    }

    /** A section the operators made themselves: no titles. */
    predicate Untitled()
      reads this
    {
      headerTitle == None && footerTitle == None
    }
  }

  /** A form: an ordered sequence of sections. */
  class Form {
    var sections: seq<Section>

    /** An empty form. */
    constructor ()
      ensures sections == []
    {
      sections := [];
    }

    /** The rows of each section, in section order. */
    function Shape(): seq<seq<Row>>
      reads this, sections
    {
      var ss := sections;
      seq(|ss|, i requires 0 <= i < |ss| reads ss => ss[i].rows)
    }

    /** Every row of the form in display order. */
    function Rows(): seq<Row>
      reads this, sections
    {
      Layout.Flatten(Shape())
    }
  }
}
