/**
 * FileEvent: the value MultiFileReader emits when it starts or ends reading a
 * file, or fails on it. Equality and the hash code are those of Java's
 * equals/hashCode; LiveFile's own equals and hashCode are not part of this model
 * and come in as parameters.
 */
module FileEvents {
  import opened Wrappers
  import opened JavaInts

  /** The three kinds of file event. */
  datatype Action = START | END | ERROR

  /** A file being read, opaque here. */
  datatype LiveFile = LiveFile(path: string)

  datatype FileEvent = FileEvent(file: LiveFile, action: Action)

  /** Utils.checkNotNull's failure: the name of the null argument. */
  datatype NullArgument = NullArgument(name: string)

  /** What equals(Object) may be handed: null, a FileEvent, or an object of another class. */
  datatype JavaObject = Null | AFileEvent(event: FileEvent) | OtherObject(className: string)

  /**
   * new FileEvent(file, action): the file is checked for null first, then the
   * action; on success the getters give back exactly the arguments.
   */
  function NewFileEvent(file: Option<LiveFile>, action: Option<Action>): (r: Result<FileEvent, NullArgument>)
    ensures r.Success? <==> file.Some? && action.Some?
    ensures file.None? ==> r.error == NullArgument("file")
    ensures file.Some? && action.None? ==> r.error == NullArgument("action")
    ensures r.Success? ==> r.value.file == file.value && r.value.action == action.value
  {
    if file.None? then Failure(NullArgument("file"))
    else if action.None? then Failure(NullArgument("action"))
    else Success(FileEvent(file.value, action.value))
  }

  /**
   * equals(obj), where `fileEquals` is LiveFile.equals: only another FileEvent
   * can be equal, and then exactly when the files are equal and the actions the same.
   */
  predicate Equals(e: FileEvent, obj: JavaObject, fileEquals: (LiveFile, LiveFile) -> bool)
    ensures Equals(e, obj, fileEquals) ==> obj.AFileEvent?
    ensures obj.AFileEvent? ==>
      (Equals(e, obj, fileEquals) <==> fileEquals(e.file, obj.event.file) && e.action == obj.event.action)
  {
    match obj
    case Null => false
    case AFileEvent(other) => fileEquals(e.file, other.file) && e.action == other.action
    case OtherObject(_) => false
  }

  /** hashCode(), where `fileHash` is LiveFile.hashCode and `actionHash` is Action.hashCode. */
  function HashCode(e: FileEvent, fileHash: LiveFile -> int, actionHash: Action -> int): (h: int)
    ensures IsInt(h)
  {
    AddInt(fileHash(e.file), actionHash(e.action))
  }

  /** Every Action is one of the three constants. */
  lemma ActionValues(a: Action)
    ensures a == START || a == END || a == ERROR
    ensures START != END && END != ERROR && START != ERROR
  {
  }

  /** equals(null) and equals of an object of another class are false. */
  lemma NotEqualToNullOrOther(e: FileEvent, className: string, fileEquals: (LiveFile, LiveFile) -> bool)
    ensures !Equals(e, Null, fileEquals)
    ensures !Equals(e, OtherObject(className), fileEquals)
  {
  }

  /** With LiveFile equality taken as value equality, two events are equal exactly when both parts are. */
  lemma EqualsMeansSameFileAndAction(e: FileEvent, other: FileEvent)
    ensures Equals(e, AFileEvent(other), (a, b) => a == b) <==> e.file == other.file && e.action == other.action
    ensures Equals(e, AFileEvent(other), (a, b) => a == b) <==> e == other
  {
  }

  /** equals is reflexive when LiveFile.equals is. */
  lemma EqualsReflexive(e: FileEvent, fileEquals: (LiveFile, LiveFile) -> bool)
    requires forall f :: fileEquals(f, f)
    ensures Equals(e, AFileEvent(e), fileEquals)
  {
  }

  /** equals is symmetric when LiveFile.equals is. */
  lemma EqualsSymmetric(e: FileEvent, other: FileEvent, fileEquals: (LiveFile, LiveFile) -> bool)
    requires forall f, g :: fileEquals(f, g) ==> fileEquals(g, f)
    ensures Equals(e, AFileEvent(other), fileEquals) ==> Equals(other, AFileEvent(e), fileEquals)
  {
  }

  /** equals is transitive when LiveFile.equals is. */
  lemma EqualsTransitive(e: FileEvent, f: FileEvent, g: FileEvent, fileEquals: (LiveFile, LiveFile) -> bool)
    requires forall x, y, z :: fileEquals(x, y) && fileEquals(y, z) ==> fileEquals(x, z)
    requires Equals(e, AFileEvent(f), fileEquals) && Equals(f, AFileEvent(g), fileEquals)
    ensures Equals(e, AFileEvent(g), fileEquals)
  {
  }

  /** Equal events have equal hash codes when LiveFile's equals and hashCode agree. */
  lemma EqualEventsEqualHash(e: FileEvent, other: FileEvent, fileEquals: (LiveFile, LiveFile) -> bool,
                             fileHash: LiveFile -> int, actionHash: Action -> int)
    requires forall f, g :: fileEquals(f, g) ==> fileHash(f) == fileHash(g)
    requires Equals(e, AFileEvent(other), fileEquals)
    ensures HashCode(e, fileHash, actionHash) == HashCode(other, fileHash, actionHash)
  {
  }

  /** The hash is the sum of the two parts' hashes, wrapped once at most into the int range. */
  lemma HashOfParts(file: LiveFile, action: Action, fileHash: LiveFile -> int, actionHash: Action -> int)
    requires IsInt(fileHash(file)) && IsInt(actionHash(action))
    ensures var h := HashCode(FileEvent(file, action), fileHash, actionHash);
      h == fileHash(file) + actionHash(action)
      || h == fileHash(file) + actionHash(action) - 0x1_0000_0000
      || h == fileHash(file) + actionHash(action) + 0x1_0000_0000
  {
    var s := fileHash(file) + actionHash(action);
    var h := HashCode(FileEvent(file, action), fileHash, actionHash);
    assert (h - s) % 0x1_0000_0000 == 0;
    assert -0x1_0000_0000 <= h - s <= 0x1_0000_0000;
  }
}
