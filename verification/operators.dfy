/** The form-building operators.

    `<<<` (attach) puts rows into a section; `+++` (append) puts sections into
    a form, wrapping a bare row in a new untitled section first. Each overload
    of the library is a separately named method here:

      Section <<< Row   SectionAttachRow      Form +++ Section     FormAppendSection
      Row <<< Row       RowAttachRow          Form +++ Row         FormAppendRow
                                              Section +++ Section  SectionAppendSection
                                              Section +++ Row      SectionAppendRow
                                              Row +++ Row          RowAppendRow

    `<<<` binds tighter than `+++` and both associate to the left, so an
    unparenthesised chain runs every `<<<` before the `+++` around it, left to
    right. The bodies below that are themselves written as operator chains
    are spelled out as the nested calls that this grouping gives.

    A method without a `modifies` clause changes no object that existed before
    the call: it only builds and fills new sections and forms. None of the
    operators has a precondition, and none ever removes, reorders or
    deduplicates anything. */
module Operators {
  import opened Descriptors
  import Layout

  /** `left <<< right` for a section and a row: the row goes at the tail of
      the section's rows and the same section comes back. */
  method SectionAttachRow(left: Section, right: Row) returns (r: Section)
    modifies left`rows
    ensures r == left
    ensures left.rows == old(left.rows) + [right]
  {
    left.rows := left.rows + [right];
    r := left;
  }

  /** `left <<< right` for two rows: a new untitled section holding both, in order. */
  method RowAttachRow(left: Row, right: Row) returns (r: Section)
    ensures fresh(r) && r.Untitled()
    ensures r.rows == [left, right]
  {
    var section := new Section(None, None);
    // section <<< left <<< right, grouped as (section <<< left) <<< right
    var withLeft := SectionAttachRow(section, left);
    var withBoth := SectionAttachRow(withLeft, right);
    r := section;
  }

  /** The display of `f` after `s` was added at its tail, given the display before. */
  lemma AppendedShape(f: Form, before: seq<seq<Row>>, s: Section)
    requires |f.sections| == |before| + 1 && f.sections[|before|] == s
    requires forall i :: 0 <= i < |before| ==> f.sections[i].rows == before[i]
    ensures f.Shape() == before + [s.rows]
    ensures f.Rows() == Layout.Flatten(before) + s.rows
  {
    assert f.Shape() == before + [s.rows];
    Layout.FlattenSnoc(before, s.rows);
  }

  /** `left +++ right` for a form and a section: the section goes at the tail
      of the form's sections, its rows unchanged, and the same form comes back. */
  method FormAppendSection(left: Form, right: Section) returns (r: Form)
    modifies left`sections
    ensures r == left
    ensures left.sections == old(left.sections) + [right]
    ensures left.Rows() == old(left.Rows()) + right.rows
  {
    ghost var before := left.Shape();
    left.sections := left.sections + [right];
    AppendedShape(left, before, right);
    r := left;
  }

  /** `left +++ right` for a form and a row: a new untitled section holding
      just the row goes at the tail of the form's sections, and the same form
      comes back. The sections already in the form, the last one included,
      are left as they were. */
  method FormAppendRow(left: Form, right: Row) returns (r: Form)
    modifies left`sections
    ensures r == left
    ensures |left.sections| == |old(left.sections)| + 1
    ensures left.sections[..|old(left.sections)|] == old(left.sections)
    ensures var added := left.sections[|old(left.sections)|];
      fresh(added) && added.Untitled() && added.rows == [right]
    ensures forall s :: s in old(left.sections) ==> s.rows == old(s.rows)
    ensures left.Rows() == old(left.Rows()) + [right]
  {
    var section := new Section(None, None);
    // left +++ section <<< right, grouped as left +++ (section <<< right)
    var attached := SectionAttachRow(section, right);
    var appended := FormAppendSection(left, attached);
    r := left;
  }

  /** `left +++ right` for two sections: a new form holding both, in order. */
  method SectionAppendSection(left: Section, right: Section) returns (r: Form)
    ensures fresh(r)
    ensures r.sections == [left, right]
    ensures r.Rows() == left.rows + right.rows
  {
    var form := new Form();
    // form +++ left +++ right, grouped as (form +++ left) +++ right
    var withLeft := FormAppendSection(form, left);
    var withBoth := FormAppendSection(withLeft, right);
    r := form;
  }

  /** `left +++ right` for a section and a row: a new form holding the section
      and then a new untitled section with just the row. */
  method SectionAppendRow(left: Section, right: Row) returns (r: Form)
    ensures fresh(r)
    ensures |r.sections| == 2 && r.sections[0] == left
    ensures var wrapper := r.sections[1];
      fresh(wrapper) && wrapper.Untitled() && wrapper.rows == [right]
    ensures r.Rows() == left.rows + [right]
  {
    var section := new Section(None, None);
    var attached := SectionAttachRow(section, right);
    r := SectionAppendSection(left, section);
  }

  /** `left +++ right` for two rows: a new form of two new, distinct, untitled
      sections, the first holding `left` and the second `right`. */
  method RowAppendRow(left: Row, right: Row) returns (r: Form)
    ensures fresh(r) && |r.sections| == 2
    ensures fresh(r.sections[0]) && fresh(r.sections[1]) && r.sections[0] != r.sections[1]
    ensures r.sections[0].Untitled() && r.sections[1].Untitled()
    ensures r.sections[0].rows == [left] && r.sections[1].rows == [right]
    ensures r.Rows() == [left, right]
  {
    // Section(nil, nil) <<< left +++ Section(nil, nil) <<< right,
    // grouped as (Section(nil, nil) <<< left) +++ (Section(nil, nil) <<< right)
    var first := new Section(None, None);
    var firstWithRow := SectionAttachRow(first, left);
    var second := new Section(None, None);
    var secondWithRow := SectionAttachRow(second, right);
    r := SectionAppendSection(firstWithRow, secondWithRow);
  }
}
