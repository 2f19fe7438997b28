# SwiftForms form-building operators in Dafny

RxSwiftForms adds two infix operators for writing a SwiftForms form out of its
pieces. A form (`FormDescriptor`) holds an ordered list of sections. A section
(`FormSectionDescriptor`) holds an ordered list of rows (`FormRowDescriptor`)
and an optional header and footer title.

- `<<<` attaches a row to a section. Given two rows, it first makes a new
  untitled section for them.
- `+++` appends a section to a form. A bare row is wrapped in a new untitled
  section first. Given two sections or rows and no form, it makes a new form.

`<<<` binds tighter than `+++`, and both associate to the left. So
`form +++ s <<< r1 <<< r2 +++ r3` fills `s` with `r1, r2`, appends `s` to
`form`, and then appends a new section holding `r3`.

The descriptors are reference objects, and the operators mutate them in place.
The model therefore has three Dafny classes (`Descriptors.Row`,
`Descriptors.Section`, `Descriptors.Form`), with `seq` fields for the rows and
the sections. Each of the seven operator overloads is a separately named
method in module `Operators`:

| overload | method |
|---|---|
| Section `<<<` Row | `SectionAttachRow` |
| Row `<<<` Row | `RowAttachRow` |
| Form `+++` Section | `FormAppendSection` |
| Form `+++` Row | `FormAppendRow` |
| Section `+++` Section | `SectionAppendSection` |
| Section `+++` Row | `SectionAppendRow` |
| Row `+++` Row | `RowAppendRow` |

Dafny has no user-defined operators. A body that the library writes as an
operator chain is therefore written as the nested calls that the precedence
rules give. Each method's contract states:

- which object it returns, and whether that object is fresh;
- the exact new `rows` or `sections` sequence;
- that new sections are untitled;
- through its `modifies` clause, or the absence of one, which objects may
  change. Every other object stays as it was.

The rows a host displays are the rows of the sections, section by section.
`Form.Rows()` gives that order, using `Layout.Flatten`. The lemmas in module
`Layout` describe that display order for any form. `Layout.FlattenSnoc`,
which rests on `Layout.FlattenConcat`, lets the `+++` operators also state
where their operands' rows end up in the display. Module
`Scenarios` writes out operator chains: the precedence and associativity,
applying an operator twice, and the live-reference behaviour.

The doc comment on `Form +++ Row` (`Source/Operators.swift:40`) says the row
goes into the last section of the form. The code at lines 47-49 instead wraps
the row in a new section. The model follows the code, and
`Operators.FormAppendRow` states that every section already in the form,
including the last one, keeps its rows.

## Model

| member | source | states |
|---|---|---|
| Layout.FlattenConcat | Source/Operators.swift:34-37 | appending sections to a form appends their rows to the displayed rows and leaves the rows already displayed in place |
| Layout.FlattenSnoc | Source/Operators.swift:35 | one section added at the tail adds exactly its rows at the tail of the display |
| Layout.FlattenMembership | Source/Operators.swift:35 | for the display order that `Form.Rows()` gives: a row is displayed if and only if some section of the form holds it, so the display neither loses nor invents rows |
| Layout.FlattenIndex | Source/Operators.swift:34-37 | for the display order that `Form.Rows()` gives: the display goes section by section, so row j of section i comes right after the rows of the sections before section i |
| Descriptors.Section.constructor | Source/Operators.swift:125 | a section made with given header and footer titles has those titles and no rows |
| Descriptors.Form.constructor | Source/Operators.swift:62 | a new form has no sections |
| Operators.SectionAttachRow | Source/Operators.swift:110-113 | Section `<<<` Row returns the same section, whose rows are the old rows with the row added at the tail; only that section's rows change |
| Operators.RowAttachRow | Source/Operators.swift:124-128 | Row `<<<` Row returns a fresh untitled section whose rows are exactly `[left, right]`; no existing object changes |
| Operators.FormAppendSection | Source/Operators.swift:34-37 | Form `+++` Section returns the same form, whose sections are the old ones with the section at the tail, and whose displayed rows gain the section's rows at the tail; only that form's section list changes |
| Operators.FormAppendRow | Source/Operators.swift:46-50 | Form `+++` Row returns the same form with exactly one fresh untitled section added at the tail holding `[right]`; earlier sections, including the last one, are the same objects with the same rows; the display gains `right` at the tail |
| Operators.SectionAppendSection | Source/Operators.swift:61-65 | Section `+++` Section returns a fresh form whose sections are `[left, right]` and whose display is `left`'s rows followed by `right`'s; no existing object changes |
| Operators.SectionAppendRow | Source/Operators.swift:76-80 | Section `+++` Row returns a fresh form of `left` and a fresh untitled section holding `[right]`; `left` keeps its rows; the display is `left`'s rows followed by `right` |
| Operators.RowAppendRow | Source/Operators.swift:91-97 | Row `+++` Row returns a fresh form of two distinct fresh untitled sections, holding `[left]` and `[right]`; the display is `[left, right]` |
| Scenarios.AttachThenAppend | Source/Operators.swift:13-23 | `r1 <<< r2 +++ r3` groups as `(r1 <<< r2) +++ r3`: a fresh form whose first section holds `[r1, r2]` and whose second holds `[r3]` |
| Scenarios.SectionChain | Source/Operators.swift:99 | `form +++ s <<< r1 <<< r2 +++ r3` fills `s` with `r1, r2`, appends `s` to `form`, then appends a fresh untitled section holding `[r3]`; the form returned is `form` itself |
| Scenarios.AttachTwice | Source/Operators.swift:111 | attaching the same row twice leaves it in the section twice, in order: no deduplication |
| Scenarios.AppendTwice | Source/Operators.swift:35 | appending the same section twice leaves it in the form twice, and its rows are displayed twice: no deduplication |
| Scenarios.AppendVersusAttach | Source/Operators.swift:91-97 | `a +++ b` builds a fresh form of two sections and `a <<< b` a fresh section, not one of that form's sections; both display exactly `[a, b]` |
| Scenarios.LiveReference | Source/Operators.swift:36 | a form holds the very section it was given, so a row attached to that section afterwards shows in the form |

## Left out

- The library's descriptor classes are not part of this model. That covers a
  row's type, tag, title and value, a form's title, and rendering. A row has
  identity only. A section has only its rows and its optional header and
  footer titles. A form has only its sections.
- The `Foundation` and `SwiftForms` imports are foreign modules.
- `@discardableResult` changes only compiler warnings. A discarded result
  becomes an unused local variable.
- The operator and precedence-group declarations themselves are not
  modelled. Dafny has no custom operators, so precedence and left
  associativity appear as the nesting of calls in the method bodies and in
  `Scenarios`.
- Combinations the library does not declare (Form with Form, Row `+++`
  Section, Form `<<<` anything, and so on) have no method, so they cannot be
  written.
- Concurrent use of one descriptor is not modelled. The operators are
  synchronous and keep no locks.
