/** The values the harness passes around: tests, statuses, results. */
module Tests {

  /** One compatibility test. The body itself is modelled in `TestHandle`;
      here only its presence matters. */
  datatype Test = Test(name: string, file: string, markers: seq<string>, hasBody: bool)

  datatype Status = Unset | Passed | Failed | Skipped | TimedOut

  datatype Result = Result(test: Test, status: Status)

  datatype Option<+T> = None | Some(value: T)

  const MARKER_SERIAL := "serial"

  const NO_TEST := Test("", "", [], false)

  /** The zero value a results slice is made of. */
  const BLANK := Result(NO_TEST, Unset)

  predicate HasMarker(t: Test, name: string) {
    name in t.markers
  }

  predicate IsSerial(t: Test) {
    HasMarker(t, MARKER_SERIAL)
  }

  /** How `runOne` settles a status once the cleanups are over. */
  function Verdict(abandoned: bool, status: Status, contextDone: bool, marked: bool): Status {
    if abandoned then TimedOut
    else if status == Failed && contextDone then TimedOut
    else if status == Passed && marked then Failed
    else status
  }
}
