/**
 * The class-file visitor of
 * src/main/java/org/clapper/util/classutil/ClassInfoClassVisitor.java.
 *
 * One visitor object receives every callback for one compiled class: it is
 * its own field, method and annotation visitor, so a single `VisitEnd`
 * sees the end of the class, of each field and method, and of each
 * annotation. Which element an annotation belongs to is tracked by a set
 * of "processing" flags, cleared at every end callback, and a snapshot of
 * them taken at that moment.
 */
module Visitor {
  import opened Wrappers
  import opened Metadata
  import JavaString

  const PROCESSING_FIELD: int := 1
  const PROCESSING_METHOD: int := 2
  const PROCESSING_CLASS: int := 3
  const PROCESSING_PARAM: int := 4

  /** The flags a processing set may hold. */
  predicate IsFlagSet(flags: set<int>) {
    flags <= {PROCESSING_FIELD, PROCESSING_METHOD, PROCESSING_CLASS, PROCESSING_PARAM}
  }

  /**
   * The annotation type name in a field descriptor `Lpkg/Name;`: the first
   * and last characters are dropped and `/` becomes `.` (Java Virtual
   * Machine Specification, sections 4.3.2 and 4.2.1).
   */
  function AnnotationClassName(rawName: string): (r: string)
    requires |rawName| >= 2
    ensures |r| == |rawName| - 2
    ensures '/' !in r
    ensures forall i :: 0 <= i < |r| ==> r[i] == (if rawName[i + 1] == '/' then '.' else rawName[i + 1])
  {
    var r := JavaString.ReplaceChar(rawName[1..|rawName| - 1], '/', '.');
    assert forall i :: 0 <= i < |r| ==> r[i] != '/';
    r
  }

  /** For a class-type descriptor the annotation name is the external class name. */
  lemma AnnotationClassNameOfDescriptor(internalName: string)
    ensures AnnotationClassName("L" + internalName + ";") == ExternalName(internalName)
  {
    var raw := "L" + internalName + ";";
    assert raw[1..|raw| - 1] == internalName;
  }

  /** The signature passed on for a field: the generic one, else `description + " " + name`. */
  function FieldSignature(name: string, description: string, signature: Option<string>): (r: string)
    ensures signature.Some? ==> r == signature.value
    ensures signature.None? ==> |r| == |description| + 1 + |name|
    ensures signature.None? ==> r[..|description|] == description && r[|description|..] == " " + name
  {
    if signature.None? then description + " " + name else signature.value
  }

  /**
   * A synthesised field signature determines the descriptor and the name
   * (field descriptors hold no space).
   */
  lemma FieldSignatureInjective(n1: string, d1: string, n2: string, d2: string)
    requires ' ' !in d1 && ' ' !in d2
    ensures (FieldSignature(n1, d1, None) == FieldSignature(n2, d2, None)) <==> (n1 == n2 && d1 == d2)
  {
    if FieldSignature(n1, d1, None) == FieldSignature(n2, d2, None) {
      assert d1 + " " + n1 == d1 + (" " + n1);
      assert d2 + " " + n2 == d2 + (" " + n2);
      JavaString.SplitAtFirst(' ', d1, " " + n1, d2, " " + n2);
      assert n1 == (" " + n1)[1..] && n2 == (" " + n2)[1..];
    }
  }

  /** The signature passed on for a method: the generic one, else `name + description`. */
  function MethodSignature(name: string, description: string, signature: Option<string>): (r: string)
    ensures signature.Some? ==> r == signature.value
    ensures signature.None? ==> |r| == |name| + |description|
    ensures signature.None? ==> r[..|name|] == name && r[|name|..] == description
  {
    if signature.None? then name + description else signature.value
  }

  /**
   * A synthesised method signature determines the name and the descriptor
   * (a method descriptor starts with `(`, which a name does not hold), and
   * `MethodInfo` stores it unchanged.
   */
  lemma MethodSignatureInjective(n1: string, d1: string, n2: string, d2: string)
    requires '(' !in n1 && '(' !in n2
    requires d1 != [] && d1[0] == '(' && d2 != [] && d2[0] == '('
    ensures NormalizeSignature(Some(n1), Some(MethodSignature(n1, d1, None))) == Some(n1 + d1)
    ensures (MethodSignature(n1, d1, None) == MethodSignature(n2, d2, None)) <==> (n1 == n2 && d1 == d2)
  {
    if n1 != [] {
      assert (n1 + d1)[0] == n1[0];
      assert n1[0] in n1;
    } else {
      assert n1 + d1 == d1;
    }
    if MethodSignature(n1, d1, None) == MethodSignature(n2, d2, None) {
      JavaString.SplitAtFirst('(', n1, d1, n2, d2);
    }
  }

  /** Which record an ending annotation is attached to. */
  datatype Owner = ClassOwner | FieldOwner | MethodOwner | NoOwner

  /**
   * The owner chosen at an end callback: the class, else the current field,
   * else the current method, by which flags are set. A parameter flag
   * alone chooses nothing.
   */
  function AttachTarget(flags: set<int>): (o: Owner)
    ensures o == ClassOwner <==> PROCESSING_CLASS in flags
    ensures o == FieldOwner <==> PROCESSING_FIELD in flags && PROCESSING_CLASS !in flags
    ensures o == MethodOwner <==>
              PROCESSING_METHOD in flags && PROCESSING_FIELD !in flags && PROCESSING_CLASS !in flags
    ensures IsFlagSet(flags) ==> (o == NoOwner <==> flags <= {PROCESSING_PARAM})
  {
    if PROCESSING_CLASS in flags then ClassOwner
    else if PROCESSING_FIELD in flags then FieldOwner
    else if PROCESSING_METHOD in flags then MethodOwner
    else NoOwner
  }

  /**
   * What an end callback appends to `owner`'s annotation list: the open
   * annotation when `owner` is the one the flags pick, else nothing.
   */
  function Attached(owner: Owner, open: Option<AnnotationInfo>, flags: set<int>): (r: seq<AnnotationInfo>)
    ensures |r| <= 1
    ensures r != [] <==> open.Some? && owner != NoOwner && AttachTarget(flags) == owner
    ensures r != [] ==> r == [open.value]
  {
    if open.Some? && owner != NoOwner && AttachTarget(flags) == owner then [open.value] else []
  }

  /** At most one owner receives the annotation: the lists grow by at most one in all. */
  lemma AttachedToOneOwner(open: Option<AnnotationInfo>, flags: set<int>)
    ensures |Attached(ClassOwner, open, flags)| + |Attached(FieldOwner, open, flags)|
            + |Attached(MethodOwner, open, flags)| <= 1
    ensures IsFlagSet(flags) && open.Some? && !(flags <= {PROCESSING_PARAM}) ==>
              |Attached(ClassOwner, open, flags)| + |Attached(FieldOwner, open, flags)|
              + |Attached(MethodOwner, open, flags)| == 1
  {
  }

  /** The caller-owned map from dotted class name to class record. */
  class FoundClasses {
    var entries: map<string, ClassInfo>

    constructor ()
      ensures entries == map[]
    {
      entries := map[];
    }
  }

  class ClassInfoClassVisitor {
    const foundClasses: FoundClasses
    const location: string
    /** The class-file bytes the enclosing data-preserving visitor holds. */
    const bytecode: Option<seq<Byte>>

    var currentClass: ClassInfo?
    var currentlyProcessing: set<int>
    var lastProcessing: Option<set<int>>
    var currentAnnotation: Option<AnnotationInfo>
    var currentField: FieldInfo?
    var currentMethod: MethodInfo?

    /** Every flag that is set, now or in the snapshot, has its record to attach to. */
    predicate Backed(flags: set<int>)
      reads this
    {
      && (PROCESSING_CLASS in flags ==> currentClass != null)
      && (PROCESSING_FIELD in flags ==> currentField != null)
      && (PROCESSING_METHOD in flags ==> currentMethod != null)
    }

    ghost predicate Valid()
      reads this
    {
      && IsFlagSet(currentlyProcessing) && Backed(currentlyProcessing)
      && (lastProcessing.Some? ==> IsFlagSet(lastProcessing.value) && Backed(lastProcessing.value))
    }

    /**
     * Once a class is being visited, some flag is set or a snapshot exists.
     * Every stream that starts at the constructor keeps this, so the branch
     * of `VisitAnnotation` that finds neither is never taken.
     */
    predicate SnapshotAvailable()
      reads this
    {
      currentClass != null ==> currentlyProcessing != {} || lastProcessing.Some?
    }

    constructor (foundClasses: FoundClasses, location: string, bytecode: Option<seq<Byte>>)
      ensures Valid()
      ensures SnapshotAvailable()
      ensures this.foundClasses == foundClasses && this.location == location && this.bytecode == bytecode
      ensures currentClass == null && currentField == null && currentMethod == null
      ensures currentlyProcessing == {} && lastProcessing == None && currentAnnotation == None
    {
      this.foundClasses := foundClasses;
      this.location := location;
      this.bytecode := bytecode;
      currentClass, currentField, currentMethod := null, null, null;
      currentlyProcessing, lastProcessing, currentAnnotation := {}, None, None;
    }

    /**
     * A class declaration: a new class record, registered under its dotted
     * name, becomes the current class, and the class flag is set.
     */
    method Visit(version: int, access: int, name: string, signature: Option<string>,
                 superName: Option<string>, interfaces: Option<seq<string>>)
      requires Valid()
      modifies this, foundClasses
      ensures Valid()
      ensures SnapshotAvailable()
      ensures currentClass != null && fresh(currentClass)
      ensures currentClass.className == ExternalName(name) && '/' !in currentClass.className
      ensures currentClass.superClassName == superName && currentClass.interfaces == interfaces
      ensures currentClass.access == access && currentClass.location == location
      ensures currentClass.bytecode == bytecode
      ensures currentClass.fields == [] && currentClass.methods == [] && currentClass.annotations == []
      ensures foundClasses.entries == old(foundClasses.entries)[ExternalName(name) := currentClass]
      ensures forall k :: k != ExternalName(name) ==>
                (k in foundClasses.entries <==> k in old(foundClasses.entries)) &&
                (k in foundClasses.entries ==> foundClasses.entries[k] == old(foundClasses.entries)[k])
      ensures currentlyProcessing == old(currentlyProcessing) + {PROCESSING_CLASS}
      ensures lastProcessing == old(lastProcessing) && currentAnnotation == old(currentAnnotation)
      ensures currentField == old(currentField) && currentMethod == old(currentMethod)
    {
      var classInfo := new ClassInfo(name, superName, interfaces, access, location);
      classInfo.SetBytecode(bytecode);
      foundClasses.entries := foundClasses.entries[classInfo.className := classInfo];
      currentClass := classInfo;
      currentlyProcessing := currentlyProcessing + {PROCESSING_CLASS};
    }

    /** An annotation value: appended to the open annotation, dropped when none is open. */
    method VisitValue(name: string, value: Value)
      requires Valid()
      modifies this
      ensures Valid()
      ensures old(SnapshotAvailable()) ==> SnapshotAvailable()
      ensures old(currentAnnotation).None? ==> currentAnnotation == None
      ensures old(currentAnnotation).Some? ==>
                currentAnnotation == Some(old(currentAnnotation).value.(
                  params := old(currentAnnotation).value.params + [NameValue(name, value)]))
      ensures currentClass == old(currentClass) && currentField == old(currentField)
      ensures currentMethod == old(currentMethod)
      ensures currentlyProcessing == old(currentlyProcessing) && lastProcessing == old(lastProcessing)
    {
      if currentAnnotation.Some? {
        var a := currentAnnotation.value;
        currentAnnotation := Some(a.(params := a.params + [NameValue(name, value)]));
      }
    }

    /**
     * A field declaration: the current class gets one new field record,
     * which becomes the current field, and the field flag is set. Returns
     * the visitor itself as the field's visitor.
     */
    method VisitField(access: int, name: string, description: string, signature: Option<string>,
                      value: Option<Value>) returns (fieldVisitor: ClassInfoClassVisitor)
      requires Valid()
      requires currentClass != null
      modifies this, currentClass
      ensures Valid()
      ensures SnapshotAvailable()
      ensures fieldVisitor == this
      ensures currentClass == old(currentClass)
      ensures currentClass.fields == old(currentClass.fields) + [currentField]
      ensures currentField != null && fresh(currentField)
      ensures currentField.signature == FieldSignature(name, description, signature)
      ensures currentField.access == access && currentField.name == name
      ensures currentField.description == description && currentField.value == value
      ensures currentField.annotations == []
      ensures currentClass.methods == old(currentClass.methods)
      ensures currentClass.annotations == old(currentClass.annotations)
      ensures currentClass.bytecode == old(currentClass.bytecode)
      ensures currentlyProcessing == old(currentlyProcessing) + {PROCESSING_FIELD}
      ensures lastProcessing == old(lastProcessing) && currentAnnotation == old(currentAnnotation)
      ensures currentMethod == old(currentMethod)
    {
      var sig := FieldSignature(name, description, signature);
      currentClass.VisitField(access, name, description, sig, value);
      currentlyProcessing := currentlyProcessing + {PROCESSING_FIELD};
      currentField := currentClass.fields[|currentClass.fields| - 1];
      fieldVisitor := this;
    }

    /**
     * A method declaration: the current class gets one new method record,
     * which becomes the current method, and the method flag is set. Returns
     * the visitor itself as the method's visitor.
     */
    method VisitMethod(access: int, name: string, description: string, signature: Option<string>,
                       exceptions: Option<seq<string>>) returns (methodVisitor: ClassInfoClassVisitor)
      requires Valid()
      requires currentClass != null
      modifies this, currentClass
      ensures Valid()
      ensures SnapshotAvailable()
      ensures methodVisitor == this
      ensures currentClass == old(currentClass)
      ensures currentClass.methods == old(currentClass.methods) + [currentMethod]
      ensures currentMethod != null && fresh(currentMethod)
      ensures currentMethod.signature ==
                NormalizeSignature(Some(name), Some(MethodSignature(name, description, signature)))
      ensures currentMethod.access == access && currentMethod.name == Some(name)
      ensures currentMethod.description == Some(description) && currentMethod.exceptions == exceptions
      ensures currentMethod.declaringClass == currentClass && currentMethod.annotations == []
      ensures currentClass.fields == old(currentClass.fields)
      ensures currentClass.annotations == old(currentClass.annotations)
      ensures currentClass.bytecode == old(currentClass.bytecode)
      ensures currentlyProcessing == old(currentlyProcessing) + {PROCESSING_METHOD}
      ensures lastProcessing == old(lastProcessing) && currentAnnotation == old(currentAnnotation)
      ensures currentField == old(currentField)
    {
      var sig := MethodSignature(name, description, signature);
      currentClass.VisitMethod(access, name, description, sig, exceptions);
      currentlyProcessing := currentlyProcessing + {PROCESSING_METHOD};
      currentMethod := currentClass.methods[|currentClass.methods| - 1];
      methodVisitor := this;
    }

    /**
     * An annotation on the class, a field or a method. With no flag set it
     * is a further annotation on the element whose end was just seen: the
     * snapshot is restored, or, with no snapshot, nothing is opened. Else a
     * new empty annotation named after the descriptor is opened (replacing
     * any open one). Returns the visitor itself as the annotation's visitor.
     */
    method VisitAnnotation(desc: string, visible: bool) returns (annotationVisitor: ClassInfoClassVisitor)
      requires Valid()
      requires currentClass != null
      requires |desc| >= 2
      modifies this
      ensures Valid()
      ensures old(SnapshotAvailable()) ==> SnapshotAvailable()
      ensures annotationVisitor == this
      ensures old(currentlyProcessing) == {} && old(lastProcessing).None? ==>
                currentlyProcessing == {} && currentAnnotation == old(currentAnnotation)
      ensures old(currentlyProcessing) == {} && old(lastProcessing).Some? ==>
                currentlyProcessing == old(lastProcessing).value &&
                currentAnnotation == Some(NewAnnotation(AnnotationClassName(desc)))
      ensures old(currentlyProcessing) != {} ==>
                currentlyProcessing == old(currentlyProcessing) &&
                currentAnnotation == Some(NewAnnotation(AnnotationClassName(desc)))
      ensures lastProcessing == old(lastProcessing)
      ensures currentClass == old(currentClass) && currentField == old(currentField)
      ensures currentMethod == old(currentMethod)
    {
      annotationVisitor := this;
      if currentlyProcessing == {} {
        if lastProcessing.Some? {
          currentlyProcessing := lastProcessing.value;
        } else {
          return;
        }
      }
      currentAnnotation := Some(NewAnnotation(AnnotationClassName(desc)));
    }

    /**
     * An annotation on a method parameter: a new empty annotation is opened
     * whatever came before, and the parameter flag is set.
     */
    method VisitParameterAnnotation(parameter: int, desc: string, visible: bool)
      returns (annotationVisitor: ClassInfoClassVisitor)
      requires Valid()
      requires |desc| >= 2
      modifies this
      ensures Valid()
      ensures SnapshotAvailable()
      ensures annotationVisitor == this
      ensures currentAnnotation == Some(NewAnnotation(AnnotationClassName(desc)))
      ensures currentlyProcessing == old(currentlyProcessing) + {PROCESSING_PARAM}
      ensures lastProcessing == old(lastProcessing)
      ensures currentClass == old(currentClass) && currentField == old(currentField)
      ensures currentMethod == old(currentMethod)
    {
      currentAnnotation := Some(NewAnnotation(AnnotationClassName(desc)));
      currentlyProcessing := currentlyProcessing + {PROCESSING_PARAM};
      annotationVisitor := this;
    }

    /**
     * The end of the class, a field, a method or an annotation. An open
     * annotation is appended to the one owner `AttachTarget` picks from the
     * flags (or to none) and closed; then the flags are saved as the
     * snapshot and cleared.
     */
    method VisitEnd()
      requires Valid()
      modifies this, currentClass, currentField, currentMethod
      ensures Valid()
      ensures SnapshotAvailable()
      ensures currentAnnotation == None
      ensures lastProcessing == Some(old(currentlyProcessing)) && currentlyProcessing == {}
      ensures currentClass == old(currentClass) && currentField == old(currentField)
      ensures currentMethod == old(currentMethod)
      ensures currentClass != null ==>
                currentClass.annotations ==
                old(currentClass.annotations) + Attached(ClassOwner, old(currentAnnotation), old(currentlyProcessing))
      ensures currentField != null ==>
                currentField.annotations ==
                old(currentField.annotations) + Attached(FieldOwner, old(currentAnnotation), old(currentlyProcessing))
      ensures currentMethod != null ==>
                currentMethod.annotations ==
                old(currentMethod.annotations) + Attached(MethodOwner, old(currentAnnotation), old(currentlyProcessing))
      ensures currentClass != null ==>
                currentClass.fields == old(currentClass.fields) && currentClass.methods == old(currentClass.methods)
                && currentClass.bytecode == old(currentClass.bytecode)
    {
      if currentAnnotation.Some? {
        var annotation := currentAnnotation.value;
        if PROCESSING_CLASS in currentlyProcessing {
          currentClass.AddAnnotation(annotation);
        } else if PROCESSING_FIELD in currentlyProcessing {
          currentField.AddAnnotation(annotation);
        } else if PROCESSING_METHOD in currentlyProcessing {
          currentMethod.AddAnnotation(annotation);
        }
        currentAnnotation := None;
      }
      lastProcessing := Some(currentlyProcessing);
      currentlyProcessing := {};
    }
  }
}
