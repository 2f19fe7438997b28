/** The display order of a form's rows.
    A form is a flat sequence of sections and every section a flat sequence of
    rows; a host shows the rows section by section, each section's rows in order.
    `Flatten` gives that order for any two-level layout. The lemmas below are
    what the operators in module Operators rely on to say where the rows of
    each operand end up. */
module Layout {

  /** The rows of `layout` in display order: section by section. */
  function Flatten<T>(layout: seq<seq<T>>): seq<T>
  {
    if layout == [] then [] else layout[0] + Flatten(layout[1..])
  }

  /** Appending sections to a layout appends their rows to the display, and
      leaves the rows already displayed where they were. */
  lemma {:induction false} FlattenConcat<T>(a: seq<seq<T>>, b: seq<seq<T>>)
    ensures Flatten(a + b) == Flatten(a) + Flatten(b)
  {
    if a == [] {
      assert a + b == b;
    } else {
      assert (a + b)[1..] == a[1..] + b;
      FlattenConcat(a[1..], b);
    }
  }

  /** Adding one section at the tail adds exactly its rows at the tail of the display. */
  lemma FlattenSnoc<T>(a: seq<seq<T>>, s: seq<T>)
    ensures Flatten(a + [s]) == Flatten(a) + s
  {
    FlattenConcat(a, [s]);
    assert Flatten([s]) == s + Flatten([s][1..]);
  }

  /** A row is displayed exactly when some section holds it: the sectioning
      neither loses nor invents rows. */
  lemma {:induction false} FlattenMembership<T>(layout: seq<seq<T>>, x: T)
    ensures x in Flatten(layout) <==> exists i :: 0 <= i < |layout| && x in layout[i]
  {
    if layout != [] {
      FlattenMembership(layout[1..], x);
      if x in Flatten(layout[1..]) {
        var i :| 0 <= i < |layout[1..]| && x in layout[1..][i];
        assert x in layout[i + 1];
      }
      if exists i :: 0 <= i < |layout| && x in layout[i] {
        var i :| 0 <= i < |layout| && x in layout[i];
        if i > 0 {
          assert x in layout[1..][i - 1];
        }
      }
    }
  }

  /** Row `j` of section `i` is displayed right after the rows of the sections
      before it: the display is section-major and keeps each section's order. */
  lemma FlattenIndex<T>(layout: seq<seq<T>>, i: nat, j: nat)
    requires i < |layout| && j < |layout[i]|
    ensures |Flatten(layout[..i])| + j < |Flatten(layout)|
    ensures Flatten(layout)[|Flatten(layout[..i])| + j] == layout[i][j]
  {
    assert layout == layout[..i] + ([layout[i]] + layout[i + 1..]);
    FlattenConcat(layout[..i], [layout[i]] + layout[i + 1..]);
    FlattenConcat([layout[i]], layout[i + 1..]);
    FlattenSnoc([], layout[i]);
    assert Flatten([layout[i]]) == layout[i];
  }
}
