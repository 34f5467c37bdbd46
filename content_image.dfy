/** The child images a group draws. Only their self-serialisation matters
    here: writing a child either yields its bytes or fails with an error. */
module ContentImages {
  import opened Errors

  /** A child image: its object-table position `index` and what its own
      `write` produces when rendered into the group's stream buffer. */
  datatype ContentImage = ContentImage(index: int, output: Result<string>)

  /** Number of bytes a child adds to the buffer (none when it fails). */
  function Size(x: ContentImage): nat {
    if x.output.Success? then |x.output.value| else 0
  }
}
