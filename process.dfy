/** What the operating system makes of the value a Node.js program passes to
    `process.exit`: on POSIX systems the parent process sees only its low eight bits. */
module Process {

  /** The exit status a parent process observes for `process.exit(code)`. */
  function ExitStatus(code: int): (status: int)
    ensures 0 <= status < 256
    ensures (code - status) % 256 == 0
  {
    code % 256
  }
}
