/**
 * The check made once at process start, before the server is started: the
 * classification plug-in must be found, and its `angles` variable is then
 * read over a connection opened with a 5-second timeout.
 */
module Startup {

  /** The variable of the classification plug-in that holds the angles. */
  const AnglesSuffix: string := ".angles"

  /** What start-up does after `find_id(classification_id)` returned `found`. */
  datatype Boot = Abort(message: string) | ReadAngles(path: string)

  /**
   * An empty lookup ends the process with a message naming the id, before
   * the server is started; otherwise the first path found, plus `.angles`,
   * is read.
   */
  function Discover(classificationId: string, found: seq<string>): (b: Boot)
    ensures b.Abort? <==> found == []
    ensures b.Abort? ==> b.message == "Error: Could not find plug-in with ID\"" + classificationId + "\""
    ensures b.ReadAngles? ==> b.path == found[0] + AnglesSuffix
  {
    if found == [] then Abort("Error: Could not find plug-in with ID" + "\"" + classificationId + "\"")
    else ReadAngles(found[0] + AnglesSuffix)
  }
}
