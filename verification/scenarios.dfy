/** Operator chains as a form definition writes them, each spelled out as the
    nested calls that the precedence of `<<<` over `+++` and their left
    associativity give, with what the chain builds. */
module Scenarios {
  import opened Descriptors
  import Operators

  /** `r1 <<< r2 +++ r3` groups as `(r1 <<< r2) +++ r3`: one new section
      holding the first two rows, then a new section wrapping the third. */
  method AttachThenAppend(r1: Row, r2: Row, r3: Row) returns (f: Form)
    ensures fresh(f) && |f.sections| == 2
    ensures f.sections[0].rows == [r1, r2] && f.sections[1].rows == [r3]
    ensures fresh(f.sections[0]) && fresh(f.sections[1])
    ensures f.Rows() == [r1, r2, r3]
  {
    var pair := Operators.RowAttachRow(r1, r2);
    f := Operators.SectionAppendRow(pair, r3);
  }

  /** `form +++ s <<< r1 <<< r2 +++ r3` groups as
      `(form +++ ((s <<< r1) <<< r2)) +++ r3`: the rows go into `s` before
      `s` joins the form, and the last row gets a section of its own. */
  method SectionChain(form: Form, s: Section, r1: Row, r2: Row, r3: Row) returns (f: Form)
    modifies form`sections, s`rows
    ensures f == form
    ensures s.rows == old(s.rows) + [r1, r2]
    ensures |form.sections| == |old(form.sections)| + 2
    ensures form.sections[..|old(form.sections)| + 1] == old(form.sections) + [s]
    ensures var last := form.sections[|old(form.sections)| + 1];
      fresh(last) && last.Untitled() && last.rows == [r3]
  {
    var s1 := Operators.SectionAttachRow(s, r1);
    var s2 := Operators.SectionAttachRow(s1, r2);
    var f1 := Operators.FormAppendSection(form, s2);
    f := Operators.FormAppendRow(f1, r3);
  }

  /** `s <<< r <<< r`: the row is attached twice, nothing is deduplicated. */
  method AttachTwice(s: Section, r: Row) returns (result: Section)
    modifies s`rows
    ensures result == s
    ensures s.rows == old(s.rows) + [r, r]
  {
    var once := Operators.SectionAttachRow(s, r);
    result := Operators.SectionAttachRow(once, r);
  }

  /** `f +++ s +++ s`: the section is appended twice, nothing is deduplicated. */
  method AppendTwice(f: Form, s: Section) returns (result: Form)
    modifies f`sections
    ensures result == f
    ensures f.sections == old(f.sections) + [s, s]
    ensures f.Rows() == old(f.Rows()) + s.rows + s.rows
  {
    var once := Operators.FormAppendSection(f, s);
    result := Operators.FormAppendSection(once, s);
  }

  /** `f +++ s` and then `s <<< r`: the form holds the section itself, not a
      copy, so the row attached afterwards shows up in the form. */
  method LiveReference(f: Form, s: Section, r: Row)
    modifies f`sections, s`rows
    ensures f.sections == old(f.sections) + [s]
    ensures f.sections[|f.sections| - 1].rows == old(s.rows) + [r]
  {
    var appended := Operators.FormAppendSection(f, s);
    var attached := Operators.SectionAttachRow(s, r);
  }

  /** `a +++ b` and `a <<< b` for the same two rows display the same rows in
      the same order; they differ only in the sectioning: two one-row sections
      in a new form against one new two-row section. */
  method AppendVersusAttach(a: Row, b: Row) returns (f: Form, s: Section)
    ensures fresh(f) && fresh(s)
    ensures |f.sections| == 2 && s !in f.sections
    ensures f.Rows() == s.rows == [a, b]
  {
    f := Operators.RowAppendRow(a, b);
    s := Operators.RowAttachRow(a, b);
  }
}
