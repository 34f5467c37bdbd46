# gopdf transparency groups, in Dafny

gopdf is a Go library that produces PDF documents. A
`TransparencyXObjectGroup` is one of its document objects: a Form XObject
(section 8.10 of ISO 32000-1) with a transparency group attribute
(section 11.6.6 of ISO 32000-1). Its children are cached content images.
The group's `write` method does four things in this order:

- it renders every child into a stream buffer in list order, and stops at
  the first child that fails;
- it builds the stream dictionary: form type 1, the `/XObject` type, the
  identity matrix, the bounding box at three decimals, a `DeviceGray`
  transparency group, and resources that name every child `/I{index+1}`
  and every graphics state `/GS{index+1}`;
- it sets `/Length` to the buffer's size;
- it writes the header up to `stream`, then the buffer, then `endstream`,
  and stops at the first write that fails.

The model has seven modules:

- `Errors`: the error values and the `Result`/`Option` types.
- `Decimal`: `%d` and `%.3F` number formatting, with parsers and round-trip
  lemmas.
- `Text`: lines, splitting, joining and concatenation.
- `Sink`: the `io.Writer`, as a class whose calls each accept all their
  data or fail. The set of failing call numbers is fixed when the writer is
  made, so every failure pattern can be stated.
- `ContentImages`: a child image, reduced to its index and what its own
  `write` produces (its bytes, or an error).
- `XObjectGroup`: the group class, its constructor, `write` and its helper
  methods, and the functions that specify them.
- `FormReader`: a strict reader for the text `write` produces. It is the
  partner of `write`: what is written reads back as the group's box, its
  entries in order, the declared `/Length` and the body.

`write` is proved against the function `Serialize`, which renders the
body and then emits the three pieces. The lemmas beside it state which
text reaches the writer in each success and failure case. Its contract
mentions only the group's box, children and graphics-state indexes, so
neither `Matrix` nor `objId` can change what is written.

The `/I` names come from each child's own index plus 1, not from its
position in the list. The two agree only when the children carry the
indexes 0, 1, 2 and so on, in order. The model follows the code.

## Model

| member | source | states |
|---|---|---|
| `XObjectGroup.TransparencyXObjectGroup.Write` | transparency_xobject_group.go:57-111 | the writer ends holding its old text plus exactly what `Serialize` emits for the group's box, children and graphics states; the call count and the returned error match. It invokes every child's write, or every child up to and including the first failing one. Only the writer is modified, so the group is unchanged |
| `XObjectGroup.RenderBody` | transparency_xobject_group.go:58-65 | rendering the children succeeds exactly when every child succeeds; the buffer's size is then the children's total size; otherwise the error is that of a first failing child |
| `XObjectGroup.BodyIsConcatenation` | transparency_xobject_group.go:61-65 | with every child rendered, the buffer is the children's outputs concatenated in list order |
| `XObjectGroup.ChildErrorIsFirstFailure` | transparency_xobject_group.go:61-64 | when child `j` is the first to fail, its error is the one returned, whatever later children would do |
| `XObjectGroup.XObjectsDictionary` | transparency_xobject_group.go:77-81 | the loop builds the `/XObject` sub-dictionary: one entry line per child, in list order, between the opening and closing lines |
| `XObjectGroup.ExtGStatesDictionary` | transparency_xobject_group.go:83-87 | the loop builds the `/ExtGState` sub-dictionary: one entry line per graphics-state index, in order, between the opening and closing lines |
| `XObjectGroup.BuildContent` | transparency_xobject_group.go:67-96 | the header built by successive appends is the dictionary's lines in source order, followed by the `stream` line |
| `XObjectGroup.EntryLineText` | transparency_xobject_group.go:79 | an entry line is the name prefix and number, a space, the object number, and ` 0 R` |
| `XObjectGroup.HeaderNamesFormXObject` | transparency_xobject_group.go:53-71 | every header starts with `<<`, `/FormType 1`, `/Subtype /Form`, `/Type /XObject` and the identity `/Matrix [1 0 0 1 0 0]`, whatever the group holds |
| `XObjectGroup.GetTypeNamesTypeLine` | transparency_xobject_group.go:53-55 | `getType` returns `XObject`, and the `/Type` line the header builds from it (line 70) is `/Type /` followed by that value |
| `XObjectGroup.WriteStream` | transparency_xobject_group.go:98-110 | the header, the body and `endstream` are written in three calls, each only if the previous ones succeeded; the first error is returned |
| `XObjectGroup.WriteSucceeds` | transparency_xobject_group.go:94-110 | with every child rendered and no failing write: status nil, three calls, and output equal to the header with `/Length` set to the children's total size, then their outputs in order, then `endstream` |
| `XObjectGroup.WriteStatus` | transparency_xobject_group.go:61-110 | `write` returns nil exactly when every child renders and none of the three writer calls fails |
| `XObjectGroup.ChildFailureWritesNothing` | transparency_xobject_group.go:61-65 | when a child fails, its error is returned, the writer is never called and nothing reaches it |
| `XObjectGroup.HeaderWriteFails` | transparency_xobject_group.go:98-100 | a failing header write returns that error after one call and writes no body |
| `XObjectGroup.BodyWriteFails` | transparency_xobject_group.go:102-104 | a failing body write returns that error after two calls; `endstream` is not attempted and only the header was written |
| `XObjectGroup.TrailerWriteFails` | transparency_xobject_group.go:106-108 | a failing `endstream` write returns that error after the header and the body were written |
| `XObjectGroup.TransparencyXObjectGroup.constructor` | transparency_xobject_group.go:27-33 | the new group holds the options' box, children, protection and graphics-state indexes, and the index allocated for it; `Matrix` is zero |
| `XObjectGroup.GetCachedTransparencyXObjectGroup` | transparency_xobject_group.go:26-39 | it returns a new group that copies the four option fields and has the allocated index; the error is always nil |
| `XObjectGroup.TransparencyXObjectGroup.SetProtection` | transparency_xobject_group.go:45-51 | after `setProtection(p)`, `protection()` returns `p`; no other field changes |
| `XObjectGroup.WriteIsRepeatable` | transparency_xobject_group.go:57 | writing the same group to two writers in the same state gives the same text, the same call count and the same error |
| `Sink.Writer.Write` | transparency_xobject_group.go:98-106 | a writer call either appends all its data and returns nil, or appends nothing and returns that call's error |
| `Sink.Emit` | transparency_xobject_group.go:98-110 | writing several pieces succeeds exactly when no call fails, and then emits their concatenation; otherwise it stops at the first failing call, emits only the pieces before it, and returns its error |
| `Sink.EmitThree` | transparency_xobject_group.go:98-110 | the four outcomes of three writes in a row: fail on the first, second or third call, or write all three |
| `Decimal.ThousandthsRoundTrip` | transparency_xobject_group.go:72 | a coordinate printed with three decimals parses back to the same value, negative values included |
| `Decimal.IntRoundTrip` | transparency_xobject_group.go:94 | a number printed by `%d` parses back to the same number, negative numbers included |
| `Decimal.IntToStringInjective` | transparency_xobject_group.go:79 | two numbers print alike exactly when they are equal |
| `FormReader.FormRoundTrip` | transparency_xobject_group.go:67-111 | a header with `/Length` equal to the body's size, followed by the body and `endstream`, reads back as the box, the children's `/I` entries, the `/GS` entries, that length and the body |
| `FormReader.WrittenFormReadsBack` | transparency_xobject_group.go:57-111 | a successful write reads back as the group's box, an entry `/I{k} {k} 0 R` with `k` the child's index plus 1 for every child in list order, an entry `/GS{r+1} {r} 0 R` for every graphics-state index, a `/Length` equal to the children's total size, and a body that is their outputs concatenated |
| `FormReader.EmptyGroupHasLengthZero` | transparency_xobject_group.go:77-94 | a group without children writes an empty `/XObject` dictionary, `/Length 0` and an empty body |
| `FormReader.HeaderRoundTrip` | transparency_xobject_group.go:67-95 | the dictionary lines parse back as the box, both entry lists and the length |
| `FormReader.ReadHeaderLinesRoundTrip` | transparency_xobject_group.go:96 | the header ends at its one `stream` line; what follows is the body |
| `FormReader.BoxRoundTrip` | transparency_xobject_group.go:72 | the `/BBox` line parses back as the four corners |
| `FormReader.EntryRoundTrip` | transparency_xobject_group.go:79-85 | an entry line parses back as its name number and its object number |
| `FormReader.EntriesRoundTrip` | transparency_xobject_group.go:78-87 | the entry lines of a sub-dictionary parse back as their references, in order, up to the closing line |
| `FormReader.XObjectNamesFollowIndexes` | transparency_xobject_group.go:79 | two children get the same `/XObject` entry exactly when their indexes are equal |
| `FormReader.ExtGStateNamesFollowIndexes` | transparency_xobject_group.go:85 | two graphics-state indexes get the same `/ExtGState` entry exactly when they are equal |
| `FormReader.LengthRoundTrip` | transparency_xobject_group.go:94 | the `/Length` line parses back as the length |
| `FormReader.ExampleEntries` | transparency_xobject_group.go:79-85 | a child with index 0 gets the entry `/I1 1 0 R`; graphics state 2 gets `/GS3 2 0 R` |
| `FormReader.ExampleReadsBack` | transparency_xobject_group.go:57-111 | a group with one child of index 0 and graphics state 2 reads back with entries `/I1 1 0 R` and `/GS3 2 0 R`, the child's size as `/Length` and the child's output as the body |

`getType` (transparency_xobject_group.go:53-55) is
`TransparencyXObjectGroup.GetType`, and `protection` (49-51) is
`TransparencyXObjectGroup.Protection`. Neither has a contract of its own.
The rows for `GetTypeNamesTypeLine` and `SetProtection` state what they
return.

## Left out

- `Decimal.FormatThousandths`: bounding-box values are integers counted in
  thousandths, not `float64`. So `%.3F` never rounds, and values Go prints
  as `-0.000` or as `NaN`/`+Inf` are not modelled.
- Bytes: the output is a sequence of characters, one per byte. The header
  is ASCII, and the body is carried through unchanged.
- Short writes: a failing writer call is modelled as accepting nothing. A
  real writer may accept a prefix of the data before it returns its error,
  and that prefix is not modelled. So `HeaderWriteFails` (nothing written)
  and `BodyWriteFails` (only the header written) hold for such writers
  only. For others, part of the header or of the body may also reach the
  writer.
- `XObjectGroup.XObjectLine` and `XObjectGroup.ExtGStateLine`: indexes are
  unbounded integers. Go computes `index+1` in its fixed-width `int`, which
  wraps at its maximum value. The `/I` and `/GS` numbers for an index equal
  to that maximum are therefore not modelled: Go prints the wrapped,
  negative number, and the model prints the mathematical one.
- `GetBuffer`/`PutBuffer`: the buffer pool is removed. The stream buffer
  is a local string.
- `gp.addObj` and the document's object table are not part of this model.
  The allocated index is a parameter of the constructor.
- `init` and `getRoot`: `init` has a value receiver, so its assignment to
  `getRoot` changes only a copy and the group's `getRoot` stays unset. No
  method of the group reads it. The model has no such field.
- Protection: `PDFProtection` is an opaque class. The group only stores it
  and writes its children with nil protection, so no encryption is
  modelled.
- The child images are abstract: each child's own `write` is replaced by
  the bytes it writes into the buffer, or by the error it returns. The
  internals of `cacheContentImage` are not part of this model.
- `XObjectGroup.TransparencyXObjectGroup.Write`: the `defer` and `objId`
  have no effect, and neither does `Matrix`, which `write` never prints (it
  always writes the identity matrix). The model carries `Matrix` as real
  numbers but does no arithmetic on it.
