/**
 * The single-character tags of the GLS line protocol (src/pygls/GLSCommands.py).
 * Constants whose names start with `Co` are commands the client sends; those
 * starting with `Re` are tags of the lines the server sends back.
 */
module GLSCommands {

  // Commands
  const CoVersion: string := "V"
  const CoLogin: string := "N"
  const CoDevice: string := "D"
  const CoPosition: string := "P"
  const CoWaypoint: string := "W"
  const CoGroup: string := "G"
  const CoQuit: string := "Q"

  // Replies
  const ReOk: string := "K"
  const ReChange: string := "C"
  const ReError: string := "E"
  const ReGroup: string := "G"
  const RePosition: string := "P"
  const ReWaypoint: string := "W"
  const ReFinished: string := "F"
  const ReQuit: string := "Q"

  /** No two entries of `tags` are the same string. */
  predicate PairwiseDistinct(tags: seq<string>)
  {
    forall i, j :: 0 <= i < j < |tags| ==> tags[i] != tags[j]
  }

  /** Every entry of `tags` is exactly one character long. */
  predicate SingleCharacters(tags: seq<string>)
  {
    forall i :: 0 <= i < |tags| ==> |tags[i]| == 1
  }

  /** The seven command codes, in the order the module declares them. */
  function Commands(): (codes: seq<string>)
  {
    [CoVersion, CoLogin, CoDevice, CoPosition, CoWaypoint, CoGroup, CoQuit]
  }

  /** The seven command codes are one character each and pairwise distinct. */
  lemma CommandCodesDistinct()
    ensures SingleCharacters(Commands())
    ensures PairwiseDistinct(Commands())
  {
  }

  /**
   * The status replies OK, change, error and finished are pairwise distinct,
   * and none of them can be mistaken for a group, position or waypoint record.
   */
  lemma StatusRepliesDistinct()
    ensures PairwiseDistinct([ReOk, ReChange, ReError, ReFinished])
    ensures forall status :: status in [ReOk, ReChange, ReError, ReFinished] ==>
              status !in [ReGroup, RePosition, ReWaypoint]
  {
  }

  /** Record tags and the quit reply reuse the letter of the command that asks for them. */
  lemma RecordTagsMatchCommands()
    ensures ReGroup == CoGroup && RePosition == CoPosition
    ensures ReWaypoint == CoWaypoint && ReQuit == CoQuit
    ensures ReOk == "K"
  {
  }
}
