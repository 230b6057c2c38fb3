/**
 * The "missing required value" error notice. Constructing it only fixes the
 * code and the title and renders the detail message from the field name and
 * the entity id; what is modelled is the tuple handed to the `ErrorNotice`
 * base constructor.
 */
module MissingRequiredValueNotices {

  /** Notice codes; the concrete value behind `E_015` is not part of this model. */
  datatype NoticeCode = E_015

  /** The arguments of the `ErrorNotice` base constructor. */
  datatype ErrorNoticeArgs = ErrorNoticeArgs(
    filename: string,
    code: NoticeCode,
    title: string,
    message: string)

  const Title: string := "Missing required value"
  const MessagePrefix: string := "Missing value for field:"
  const MessageMiddle: string := " marked as required in entity with id:"

  /** The detail message: prefix, field name, middle literal, entity id, in that order. */
  function Message(fieldName: string, entityId: string): (m: string)
    ensures |m| == |MessagePrefix| + |fieldName| + |MessageMiddle| + |entityId|
    ensures m[..|MessagePrefix|] == MessagePrefix
    ensures m[|MessagePrefix|..|MessagePrefix| + |fieldName|] == fieldName
    ensures m[|MessagePrefix| + |fieldName|..|m| - |entityId|] == MessageMiddle
    ensures m[|m| - |entityId|..] == entityId
  {
    MessagePrefix + fieldName + MessageMiddle + entityId
  }

  /** `new MissingRequiredValueNotice(filename, fieldName, entityId)`. */
  function MissingRequiredValueNotice(filename: string, fieldName: string, entityId: string)
    : (n: ErrorNoticeArgs)
    ensures n.filename == filename
    ensures n.code == E_015
    ensures n.title == Title
    ensures n.message == Message(fieldName, entityId)
  {
    ErrorNoticeArgs(filename, E_015, Title, Message(fieldName, entityId))
  }

  /** Code and title are fixed by the notice kind: no two instances differ in them. */
  lemma CodeAndTitleFixed(f1: string, n1: string, e1: string, f2: string, n2: string, e2: string)
    ensures MissingRequiredValueNotice(f1, n1, e1).code == MissingRequiredValueNotice(f2, n2, e2).code
    ensures MissingRequiredValueNotice(f1, n1, e1).title == MissingRequiredValueNotice(f2, n2, e2).title
  {
  }

  /**
   * The message identifies the notice's arguments: for field names of one
   * length, equal messages mean equal field names and equal entity ids.
   */
  lemma MessageDeterminesArguments(n1: string, e1: string, n2: string, e2: string)
    requires |n1| == |n2|
    requires Message(n1, e1) == Message(n2, e2)
    ensures n1 == n2 && e1 == e2
  {
  }

  /**
   * Without equal field-name lengths the message does not identify the
   * arguments: a field name or entity id may itself contain the middle literal.
   */
  lemma MessageAmbiguousAcrossLengths()
    ensures Message("x", "y" + MessageMiddle + "z") == Message("x" + MessageMiddle + "y", "z")
    ensures "x" != "x" + MessageMiddle + "y"
  {
  }

  /**
   * Equal arguments give equal notices; for field names of one length the
   * converse holds as well.
   */
  lemma NoticeEquality(f1: string, n1: string, e1: string, f2: string, n2: string, e2: string)
    ensures f1 == f2 && n1 == n2 && e1 == e2
        ==> MissingRequiredValueNotice(f1, n1, e1) == MissingRequiredValueNotice(f2, n2, e2)
    ensures |n1| == |n2| && MissingRequiredValueNotice(f1, n1, e1) == MissingRequiredValueNotice(f2, n2, e2)
        ==> f1 == f2 && n1 == n2 && e1 == e2
  {
  }
}
