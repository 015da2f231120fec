/**
 * Callback streams run through the visitor, with what its contracts say
 * about the records they leave behind, and the naming rules on concrete
 * names. Each stream is cut into steps with contracts of their own.
 */
module Scenarios {
  import opened Wrappers
  import opened Metadata
  import opened Visitor

  /** The dotted name of an annotation type `com/foo/A`. */
  lemma ConcreteAnnotationName()
    ensures AnnotationClassName("Lcom/foo/A;") == "com.foo.A"
  {
    var a := AnnotationClassName("Lcom/foo/A;");
    assert forall i :: 0 <= i < |a| ==> a[i] == "com.foo.A"[i];
  }

  /** The signatures of a field `int count` and of a method `void run(int)`, plain and generic. */
  lemma ConcreteSignatures()
    ensures FieldSignature("count", "I", None) == "I count"
    ensures MethodSignature("run", "(I)V", None) == "run(I)V"
    ensures NormalizeSignature(Some("run"), Some("run(I)V")) == Some("run(I)V")
    ensures NormalizeSignature(Some("run"), Some("(TT;)V")) == Some("run(TT;)V")
  {
    assert "run(I)V"[..1] != "(" by { assert "run(I)V"[..1][0] == 'r'; }
    assert "(TT;)V"[..1] == "(";
    assert "run" + "(TT;)V" == "run(TT;)V";
  }

  /** A fresh visitor that has seen one class declaration carrying annotation `a`, and its end. */
  method AnnotatedClass(className: string, a: string)
    returns (found: FoundClasses, v: ClassInfoClassVisitor, c: ClassInfo)
    requires |a| >= 2
    ensures fresh(found) && fresh(v) && fresh(c) && v.Valid()
    ensures v.foundClasses == found && found.entries == map[ExternalName(className) := c]
    ensures v.currentClass == c && v.currentField == null && v.currentMethod == null
    ensures v.currentlyProcessing == {} && v.lastProcessing == Some({PROCESSING_CLASS})
    ensures v.currentAnnotation == None
    ensures c.className == ExternalName(className)
    ensures c.fields == [] && c.methods == [] && c.annotations == [NewAnnotation(AnnotationClassName(a))]
  {
    found := new FoundClasses();
    v := new ClassInfoClassVisitor(found, "classes", None);
    v.Visit(52, 1, className, None, None, None);
    c := v.currentClass;
    var _ := v.VisitAnnotation(a, true);
    v.VisitEnd();
    assert {} + {PROCESSING_CLASS} == {PROCESSING_CLASS};
  }

  /** A field declaration carrying annotation `a`, then its end, after an end callback. */
  method AnnotatedField(v: ClassInfoClassVisitor, name: string, desc: string, a: string)
    returns (f: FieldInfo)
    requires v.Valid() && v.currentClass != null && |a| >= 2
    requires v.currentlyProcessing == {} && v.currentAnnotation == None
    modifies v, v.currentClass, v.currentField, v.currentMethod
    ensures old(v.currentField) != null ==> old(v.currentField).annotations == old(v.currentField.annotations)
    ensures old(v.currentMethod) != null ==> old(v.currentMethod).annotations == old(v.currentMethod.annotations)
    ensures v.Valid() && fresh(f)
    ensures v.currentClass == old(v.currentClass) && v.currentField == f
    ensures v.currentMethod == old(v.currentMethod)
    ensures v.currentlyProcessing == {} && v.lastProcessing == Some({}) && v.currentAnnotation == None
    ensures v.currentClass.fields == old(v.currentClass.fields) + [f]
    ensures v.currentClass.methods == old(v.currentClass.methods)
    ensures v.currentClass.annotations == old(v.currentClass.annotations)
    ensures f.signature == FieldSignature(name, desc, None)
    ensures f.annotations == [NewAnnotation(AnnotationClassName(a))]
  {
    var _ := v.VisitField(0, name, desc, None, None);
    f := v.currentField;
    var _ := v.VisitAnnotation(a, true);
    v.VisitEnd();
    v.VisitEnd();
  }

  /** A method declaration carrying annotations `a` and then `b`, then its end, after an end callback. */
  method DoublyAnnotatedMethod(v: ClassInfoClassVisitor, name: string, desc: string, a: string, b: string)
    returns (m: MethodInfo)
    requires v.Valid() && v.currentClass != null && |a| >= 2 && |b| >= 2
    requires v.currentlyProcessing == {} && v.currentAnnotation == None
    modifies v, v.currentClass, v.currentField, v.currentMethod
    ensures old(v.currentField) != null ==> old(v.currentField).annotations == old(v.currentField.annotations)
    ensures old(v.currentMethod) != null ==> old(v.currentMethod).annotations == old(v.currentMethod.annotations)
    ensures v.Valid() && fresh(m)
    ensures v.currentClass == old(v.currentClass) && v.currentMethod == m
    ensures v.currentField == old(v.currentField)
    ensures v.currentlyProcessing == {} && v.lastProcessing == Some({}) && v.currentAnnotation == None
    ensures v.currentClass.methods == old(v.currentClass.methods) + [m]
    ensures v.currentClass.fields == old(v.currentClass.fields)
    ensures v.currentClass.annotations == old(v.currentClass.annotations)
    ensures m.annotations == [NewAnnotation(AnnotationClassName(a)), NewAnnotation(AnnotationClassName(b))]
  {
    var _ := v.VisitMethod(1, name, desc, None, None);
    m := v.currentMethod;
    var _ := v.VisitAnnotation(a, true);
    v.VisitEnd();
    // The second annotation finds no flag set: the flags come back from the snapshot.
    var _ := v.VisitAnnotation(b, true);
    v.VisitEnd();
    v.VisitEnd();
  }

  /**
   * A class with annotation `a` on the class, `a` on one field and `a`
   * then `b` on one method: each record ends up with exactly its own.
   */
  method StackedAnnotations(className: string, a: string, b: string,
                            fieldName: string, fieldDesc: string, methodName: string, methodDesc: string)
    returns (found: FoundClasses, c: ClassInfo, f: FieldInfo, m: MethodInfo)
    requires |a| >= 2 && |b| >= 2
    ensures found.entries == map[ExternalName(className) := c]
    ensures c.fields == [f] && c.methods == [m]
    ensures c.annotations == [NewAnnotation(AnnotationClassName(a))]
    ensures f.annotations == [NewAnnotation(AnnotationClassName(a))]
    ensures f.signature == FieldSignature(fieldName, fieldDesc, None)
    ensures m.annotations == [NewAnnotation(AnnotationClassName(a)), NewAnnotation(AnnotationClassName(b))]
    ensures m.IsAnnotationPresent(AnnotationClassName(b))
  {
    var v;
    found, v, c := AnnotatedClass(className, a);
    f := AnnotatedField(v, fieldName, fieldDesc, a);
    m := DoublyAnnotatedMethod(v, methodName, methodDesc, a, b);
    v.VisitEnd();
  }

  /**
   * A class with no annotation of its own: the class flag is still set when
   * its first field is declared, so that field's annotation goes to the
   * class, by the CLASS > FIELD > METHOD priority.
   */
  method UnannotatedClassFirstField(className: string, a: string, fieldName: string, fieldDesc: string)
    returns (c: ClassInfo, f: FieldInfo)
    requires |a| >= 2
    ensures c.fields == [f]
    ensures c.annotations == [NewAnnotation(AnnotationClassName(a))]
    ensures f.annotations == []
  {
    var found := new FoundClasses();
    var v := new ClassInfoClassVisitor(found, "classes", None);
    v.Visit(52, 1, className, None, None, None);
    c := v.currentClass;
    var _ := v.VisitField(0, fieldName, fieldDesc, None, None);
    f := v.currentField;
    var _ := v.VisitAnnotation(a, true);
    v.VisitEnd();
    v.VisitEnd();
  }

  /**
   * A method declaration carrying annotation `a`, whose parameter carries
   * annotation `p` with one value; then the method's end.
   */
  method AnnotatedMethodWithParameterAnnotation(v: ClassInfoClassVisitor, a: string, p: string, value: Value)
    returns (m: MethodInfo)
    requires v.Valid() && v.currentClass != null && |a| >= 2 && |p| >= 2
    requires v.currentlyProcessing == {} && v.currentAnnotation == None
    modifies v, v.currentClass, v.currentField, v.currentMethod
    ensures v.Valid() && fresh(m)
    ensures v.currentClass == old(v.currentClass) && v.currentMethod == m
    ensures v.currentField == old(v.currentField)
    ensures v.currentlyProcessing == {} && v.currentAnnotation == None
    ensures v.currentClass.annotations == old(v.currentClass.annotations)
    ensures old(v.currentField) != null ==> old(v.currentField).annotations == old(v.currentField.annotations)
    ensures old(v.currentMethod) != null ==> old(v.currentMethod).annotations == old(v.currentMethod.annotations)
    ensures m.annotations == [NewAnnotation(AnnotationClassName(a))]
  {
    var _ := v.VisitMethod(1, "run", "(I)V", None, None);
    m := v.currentMethod;
    var _ := v.VisitAnnotation(a, true);
    v.VisitEnd();
    var _ := v.VisitParameterAnnotation(0, p, true);
    v.VisitValue("value", value);
    v.VisitEnd();
    v.VisitEnd();
  }

  /**
   * A method declaration with no annotation of its own, whose parameter
   * carries annotation `p`; then the method's end.
   */
  method BareMethodWithParameterAnnotation(v: ClassInfoClassVisitor, p: string)
    returns (m: MethodInfo)
    requires v.Valid() && v.currentClass != null && |p| >= 2
    requires v.currentlyProcessing == {} && v.currentAnnotation == None
    modifies v, v.currentClass, v.currentField, v.currentMethod
    ensures v.Valid() && fresh(m)
    ensures v.currentClass == old(v.currentClass) && v.currentMethod == m
    ensures v.currentField == old(v.currentField)
    ensures v.currentlyProcessing == {} && v.currentAnnotation == None
    ensures v.currentClass.annotations == old(v.currentClass.annotations)
    ensures old(v.currentField) != null ==> old(v.currentField).annotations == old(v.currentField.annotations)
    ensures old(v.currentMethod) != null ==> old(v.currentMethod).annotations == old(v.currentMethod.annotations)
    ensures m.annotations == [NewAnnotation(AnnotationClassName(p))]
  {
    var _ := v.VisitMethod(1, "stop", "(I)V", None, None);
    m := v.currentMethod;
    var _ := v.VisitParameterAnnotation(0, p, true);
    assert v.currentlyProcessing == {PROCESSING_METHOD, PROCESSING_PARAM};
    v.VisitEnd();
    v.VisitEnd();
  }

  /**
   * A parameter annotation is attached to nothing when the method flag was
   * already cleared by an earlier annotation's end, and to the method when
   * it was not.
   */
  method ParameterAnnotations(className: string, a: string, p: string, value: Value)
    returns (c: ClassInfo, annotated: MethodInfo, bare: MethodInfo)
    requires |a| >= 2 && |p| >= 2
    ensures c.annotations == [NewAnnotation(AnnotationClassName(a))]
    ensures annotated.annotations == [NewAnnotation(AnnotationClassName(a))]
    ensures bare.annotations == [NewAnnotation(AnnotationClassName(p))]
  {
    var found, v;
    found, v, c := AnnotatedClass(className, a);
    annotated := AnnotatedMethodWithParameterAnnotation(v, a, p, value);
    bare := BareMethodWithParameterAnnotation(v, p);
  }

  /**
   * A method declaration with no annotation of its own whose parameter
   * carries annotations `p` and then `q`: the first end clears the method
   * flag, and a parameter annotation restores no snapshot, so `q` is
   * attached nowhere.
   */
  method BareMethodWithTwoParameterAnnotations(v: ClassInfoClassVisitor, p: string, q: string)
    returns (m: MethodInfo)
    requires v.Valid() && v.currentClass != null && |p| >= 2 && |q| >= 2
    requires v.currentlyProcessing == {} && v.currentAnnotation == None
    modifies v, v.currentClass, v.currentField, v.currentMethod
    ensures v.Valid() && fresh(m)
    ensures v.currentClass == old(v.currentClass) && v.currentMethod == m
    ensures v.currentClass.annotations == old(v.currentClass.annotations)
    ensures old(v.currentField) != null ==> old(v.currentField).annotations == old(v.currentField.annotations)
    ensures old(v.currentMethod) != null ==> old(v.currentMethod).annotations == old(v.currentMethod.annotations)
    ensures m.annotations == [NewAnnotation(AnnotationClassName(p))]
  {
    var _ := v.VisitMethod(1, "stop", "(II)V", None, None);
    m := v.currentMethod;
    var _ := v.VisitParameterAnnotation(0, p, true);
    v.VisitEnd();
    var _ := v.VisitParameterAnnotation(1, q, true);
    assert v.currentlyProcessing == {PROCESSING_PARAM};
    v.VisitEnd();
    v.VisitEnd();
  }

  /**
   * Of two parameter annotations on a method without annotations of its
   * own, only the first is attached, and to the method.
   */
  method TwoParameterAnnotations(className: string, a: string, p: string, q: string)
    returns (c: ClassInfo, m: MethodInfo)
    requires |a| >= 2 && |p| >= 2 && |q| >= 2
    ensures c.annotations == [NewAnnotation(AnnotationClassName(a))]
    ensures m.annotations == [NewAnnotation(AnnotationClassName(p))]
  {
    var found, v;
    found, v, c := AnnotatedClass(className, a);
    m := BareMethodWithTwoParameterAnnotations(v, p, q);
  }

  /**
   * A class with no annotation of its own whose first member is a method
   * with a parameter annotation `p`: the class flag is still set, so the
   * parameter annotation goes to the class and not to the method.
   */
  method UnannotatedClassParameterAnnotation(className: string, p: string)
    returns (c: ClassInfo, m: MethodInfo)
    requires |p| >= 2
    ensures c.methods == [m]
    ensures c.annotations == [NewAnnotation(AnnotationClassName(p))]
    ensures m.annotations == []
  {
    var found := new FoundClasses();
    var v := new ClassInfoClassVisitor(found, "classes", None);
    v.Visit(52, 1, className, None, None, None);
    c := v.currentClass;
    var _ := v.VisitMethod(1, "run", "(I)V", None, None);
    m := v.currentMethod;
    var _ := v.VisitParameterAnnotation(0, p, true);
    v.VisitEnd();
    v.VisitEnd();
  }
}
