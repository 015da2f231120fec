# Class-file metadata visitor

This project models, in Dafny, the core of the class-scanning part of the
clapper.org Java utility library: the visitor that turns the stream of
callbacks a bytecode reader emits for one compiled class into a graph of
metadata records (class, fields, methods, annotations), and the
`MethodInfo` record with its signature normalisation, ordering, equality,
hash code and annotation queries.

The visitor (`Visitor.ClassInfoClassVisitor`) is a class whose fields are
the Java object's fields: the current class, field, method and open
annotation, the set of "processing" flags (FIELD = 1, METHOD = 2,
CLASS = 3, PARAM = 4) and the snapshot of that set taken at the last end
callback. Every callback is a method that changes those fields, and its
`ensures` give the whole new state in terms of the old one. Its invariant
`Valid()` says that every flag that is set, now or in the snapshot, has a
record behind it. This is what keeps `VisitEnd` from dereferencing a
missing class, field or method. Restoring the snapshot in
`VisitAnnotation` keeps it, and so does every other callback.

The records are in module `Metadata`.

- `MethodInfo`, `ClassInfo` and `FieldInfo` are classes. A record's
  declaration data are `const` fields. Its annotation lists, and a class's
  field and method lists, are fields that the methods extend.
- `AnnotationInfo` is a value (a datatype). An annotation is only changed
  while it is open, and the open annotation is never in an owner's list:
  `VisitEnd` attaches it and closes it in the same step. So copying it
  into the list behaves like sharing the object.

Module `JavaString` gives the `java.lang.String` operations the code uses.
`CompareTo` is `compareTo`, and it is proved to be the lexicographic order,
antisymmetric and transitive. `HashCode` is `hashCode` in 32-bit
arithmetic, and `ReplaceChar` is `replace(char, char)`. Module `Scenarios`
runs whole callback streams through the visitor. It shows from the
callbacks' contracts alone what the stream leaves in each record.

Some behaviour follows from the code as written, and the model keeps it:

- A class with no annotation of its own still has the CLASS flag set when
  its first field or method is declared. If that element is annotated,
  the annotation goes to the class, because the priority is
  CLASS > FIELD > METHOD (`Scenarios.UnannotatedClassFirstField`).
- A parameter annotation restores no snapshot. It is attached by whatever
  flags are left when its end is seen: to the class while CLASS is still
  set, else to the method while METHOD is, else to no record. After a
  method annotation, it is attached nowhere (`Scenarios.ParameterAnnotations`).
  On a method without annotations, the first parameter annotation goes to
  the method and the second nowhere (`Scenarios.TwoParameterAnnotations`).
  On the first method of a class without annotations, it goes to the class
  (`Scenarios.UnannotatedClassParameterAnnotation`).
- The early return in `visitAnnotation` when no flag is set and no snapshot
  exists (ClassInfoClassVisitor.java lines 239-242) is never reached. That callback needs a current
  class, and from the moment a class is visited, some flag is set or a
  snapshot exists. Every callback keeps this property
  (`SnapshotAvailable` in each callback's `ensures`).
- `MethodInfo` puts the method name in front of a signature only when the
  signature starts with `(`. A generic signature that starts with a
  type-parameter list `<...>` is stored without the name
  (`Metadata.GenericSignatureKeepsNoName`). Two methods of one class with
  different names and the same such signature are then equal
  (`Metadata.GenericSignaturesOfOneClassEqual`).
- A field or method callback with no class declared yet is excluded by a
  `requires`, as the source's `assert` demands. The source has no separate
  error path for it.

A Java `null` string, list or snapshot is `Option.None`. A null record
reference is Dafny's `null` (`ClassInfo?`, `FieldInfo?`, `MethodInfo?`).
The annotation value and the field constant value (Java `Object`) are the
abstract type `Metadata.Value`.

## Model

| member | source | states |
|---|---|---|
| `Visitor.AnnotationClassName` | src/main/java/org/clapper/util/classutil/ClassInfoClassVisitor.java:271-274 | needs at least two characters; the result is two characters shorter, holds no `/`, and holds the characters of the descriptor without its first and last ones, each `/` turned into `.` |
| `Visitor.AnnotationClassNameOfDescriptor` | src/main/java/org/clapper/util/classutil/ClassInfoClassVisitor.java:271-274 | for a class-type descriptor `L<name>;` the annotation type name is the dotted class name, so the delimiters are stripped exactly once |
| `Visitor.FieldSignature` | src/main/java/org/clapper/util/classutil/ClassInfoClassVisitor.java:178-179 | a supplied signature is passed on unchanged; without one, the signature is the descriptor, a space, then the name |
| `Visitor.FieldSignatureInjective` | src/main/java/org/clapper/util/classutil/ClassInfoClassVisitor.java:178-179 | a synthesised field signature determines both descriptor and name (descriptors hold no space), in both directions |
| `Visitor.MethodSignature` | src/main/java/org/clapper/util/classutil/ClassInfoClassVisitor.java:207-208 | a supplied signature is passed on unchanged; without one, the signature is the name followed by the descriptor |
| `Visitor.MethodSignatureInjective` | src/main/java/org/clapper/util/classutil/ClassInfoClassVisitor.java:206-210 | a synthesised method signature determines name and descriptor, in both directions, and `MethodInfo` stores it without prefixing the name again |
| `Visitor.AttachTarget` | src/main/java/org/clapper/util/classutil/ClassInfoClassVisitor.java:281-296 | the class is chosen exactly when CLASS is set, the field exactly when FIELD is set and CLASS is not, the method exactly when only METHOD of the three is set; nothing is chosen exactly when at most PARAM is set |
| `Visitor.Attached` | src/main/java/org/clapper/util/classutil/ClassInfoClassVisitor.java:278-297 | an owner's list grows by at most one element, by the open annotation, and only when an annotation is open and the flags pick that owner |
| `Visitor.AttachedToOneOwner` | src/main/java/org/clapper/util/classutil/ClassInfoClassVisitor.java:278-298 | the three owners' lists together grow by at most one per end callback, and by exactly one when an annotation is open and CLASS, FIELD or METHOD is set |
| `Visitor.FoundClasses.constructor` | src/main/java/org/clapper/util/classutil/ClassInfoClassVisitor.java:77 | the caller's map from dotted class name to class record, into which line 142 puts each visited class, starts empty |
| `Visitor.ClassInfoClassVisitor.constructor` | src/main/java/org/clapper/util/classutil/ClassInfoClassVisitor.java:77-109 | keeps the caller's map and location; no class, field, method or annotation, no flag and no snapshot |
| `Visitor.ClassInfoClassVisitor.Visit` | src/main/java/org/clapper/util/classutil/ClassInfoClassVisitor.java:127-145 | a fresh class record with the dotted name and the preserved bytes is stored in the caller's map under the dotted name, every other entry unchanged; it becomes the current class and CLASS is added to the flags; `SnapshotAvailable` holds afterwards |
| `Visitor.ClassInfoClassVisitor.VisitValue` | src/main/java/org/clapper/util/classutil/ClassInfoClassVisitor.java:151-157 | with an annotation open, the name/value pair is appended to its parameters; with none open nothing changes |
| `Visitor.ClassInfoClassVisitor.VisitField` | src/main/java/org/clapper/util/classutil/ClassInfoClassVisitor.java:171-186 | needs a current class; exactly one fresh field record with the synthesised or given signature is appended to its fields and becomes the current field, FIELD is added, the visitor itself is returned, nothing else changes |
| `Visitor.ClassInfoClassVisitor.VisitMethod` | src/main/java/org/clapper/util/classutil/ClassInfoClassVisitor.java:200-215 | needs a current class; exactly one fresh method record, declared by that class, with the normalised synthesised or given signature, is appended and becomes the current method, METHOD is added, the visitor itself is returned |
| `Visitor.ClassInfoClassVisitor.VisitAnnotation` | src/main/java/org/clapper/util/classutil/ClassInfoClassVisitor.java:229-248 | with flags set, opens a new empty annotation named from the descriptor; with none set, restores the snapshot and opens it, or, with no snapshot, opens nothing and leaves the flags and the open annotation as they were; `SnapshotAvailable` holds afterwards if it held before |
| `Visitor.ClassInfoClassVisitor.VisitParameterAnnotation` | src/main/java/org/clapper/util/classutil/ClassInfoClassVisitor.java:263-269 | whatever the state, opens a new empty annotation named from the descriptor and adds PARAM to the flags |
| `Visitor.ClassInfoClassVisitor.VisitEnd` | src/main/java/org/clapper/util/classutil/ClassInfoClassVisitor.java:276-301 | the open annotation, if any, is appended to the one owner `AttachTarget` picks and to no other; no annotation is open afterwards; the snapshot is the flag set as it was, and the flags are empty; `SnapshotAvailable` holds afterwards |
| `Metadata.NewAnnotation` | src/main/java/org/clapper/util/classutil/MethodInfo.java:139-140 | a fresh annotation has the given type name and no parameters |
| `Metadata.SameAnnotation` | src/main/java/org/clapper/util/classutil/MethodInfo.java:141 | the equality `contains` uses: two annotations are equal exactly when their type names are, whatever their parameters |
| `Metadata.SameAnnotationIsEquivalence` | src/main/java/org/clapper/util/classutil/MethodInfo.java:141 | that equality is reflexive, symmetric and transitive |
| `Metadata.ContainsAnnotation` | src/main/java/org/clapper/util/classutil/MethodInfo.java:141 | true exactly when some element has the probe's type name |
| `Metadata.ExternalName` | src/main/java/org/clapper/util/classutil/ClassInfoClassVisitor.java:140-142 | the name the class record is filed under: same length, no `/`, each `/` of the internal name turned into `.` and every other character kept |
| `Metadata.ExternalNameRoundTrip` | src/main/java/org/clapper/util/classutil/ClassInfoClassVisitor.java:140-142 | an internal name, which holds no `.`, is recovered by turning `.` back into `/` |
| `Metadata.ExternalNameOfSimpleName` | src/main/java/org/clapper/util/classutil/ClassInfoClassVisitor.java:140-142 | a name without package is filed under itself |
| `Metadata.ExternalNameOfQualifiedName` | src/main/java/org/clapper/util/classutil/ClassInfoClassVisitor.java:140-142 | `pkg/Rest` is filed under `pkg.` followed by the dotted form of `Rest`, so `com/foo/Bar` becomes `com.foo.Bar` |
| `Metadata.FieldInfo.constructor` | src/main/java/org/clapper/util/classutil/ClassInfoClassVisitor.java:180-181 | a field record keeps the declaration data as given and starts with no annotations |
| `Metadata.FieldInfo.AddAnnotation` | src/main/java/org/clapper/util/classutil/ClassInfoClassVisitor.java:287 | appends to the end of the field's annotations |
| `Metadata.ClassInfo.constructor` | src/main/java/org/clapper/util/classutil/ClassInfoClassVisitor.java:134-138 | the class name is the dotted form of the internal name; no bytes, fields, methods or annotations yet |
| `Metadata.ClassInfo.SetBytecode` | src/main/java/org/clapper/util/classutil/ClassInfoClassVisitor.java:139 | stores the bytes and changes nothing else |
| `Metadata.ClassInfo.VisitField` | src/main/java/org/clapper/util/classutil/ClassInfoClassVisitor.java:180-183 | appends exactly one fresh field record, built from the declaration, after the existing ones |
| `Metadata.ClassInfo.VisitMethod` | src/main/java/org/clapper/util/classutil/ClassInfoClassVisitor.java:209-212 | appends exactly one fresh method record, declared by this class, with the normalised signature |
| `Metadata.ClassInfo.AddAnnotation` | src/main/java/org/clapper/util/classutil/ClassInfoClassVisitor.java:283 | appends to the end of the class's annotations, fields and methods unchanged |
| `Metadata.NormalizeSignature` | src/main/java/org/clapper/util/classutil/MethodInfo.java:57-59 | a non-null signature starting with `(` gets the non-null name in front; otherwise the signature is kept, null included |
| `Metadata.NormalizeSignatureInjective` | src/main/java/org/clapper/util/classutil/MethodInfo.java:57-59 | the stored signature ends with the given parameter list, and two (name, parameter list) pairs are stored alike exactly when they are the same pair |
| `Metadata.GenericSignatureKeepsNoName` | src/main/java/org/clapper/util/classutil/MethodInfo.java:57-59 | a signature starting with `<` is stored without the name, so methods of different names with the same such signature store the same signature |
| `Metadata.GenericSignaturesOfOneClassEqual` | src/main/java/org/clapper/util/classutil/MethodInfo.java:57-59 | two methods of one class whose stored signatures come from the same `<`-signature under any two names are equal, both ways round |
| `Metadata.MethodInfo.Empty` | src/main/java/org/clapper/util/classutil/MethodInfo.java:19-36 | access 0; null name, description, signature, exceptions and declaring class; no annotations |
| `Metadata.MethodInfo.constructor` | src/main/java/org/clapper/util/classutil/MethodInfo.java:47-62 | stores the arguments, the signature normalised; no annotations |
| `Metadata.MethodInfo.AddAnnotation` | src/main/java/org/clapper/util/classutil/MethodInfo.java:128-131 | appends to the end, earlier entries unchanged; the added type is then present and every type present before still is |
| `Metadata.MethodInfo.IsAnnotationPresent` | src/main/java/org/clapper/util/classutil/MethodInfo.java:138-142 | true exactly when a stored annotation has type name `desc`, whatever its parameters |
| `Metadata.MethodInfo.HashCode` | src/main/java/org/clapper/util/classutil/MethodInfo.java:155-159 | needs a signature and a declaring class; a Java `int` |
| `Metadata.MethodInfo.CompareTo` | src/main/java/org/clapper/util/classutil/MethodInfo.java:171-174 | needs both signatures; zero exactly when they are equal, negative exactly when this signature is lexicographically smaller |
| `Metadata.MethodInfo.Equals` | src/main/java/org/clapper/util/classutil/MethodInfo.java:187-199 | true exactly when the other object is a method record with an equal signature and a declaring class of the same name; needs both signatures only when the other object is a method record, and the declaring classes only when the signatures agree |
| `Metadata.EqualsNonRecord` | src/main/java/org/clapper/util/classutil/MethodInfo.java:191-196 | against `null` or any object that is not a method record, the result is false, whatever this record holds |
| `Metadata.MethodInfo.Label` | src/main/java/org/clapper/util/classutil/MethodInfo.java:211-213 | the signature when there is one, else the name |
| `Metadata.MethodInfo.ToString` | src/main/java/org/clapper/util/classutil/MethodInfo.java:208-214 | without a declaring class, the label; with one, the class name, a `.`, then the label, with a null label printed as `null` |
| `Metadata.ToStringSplits` | src/main/java/org/clapper/util/classutil/MethodInfo.java:208-214 | when the label holds no `.`, the printed form splits at its last `.` back into the declaring class's name and the label |
| `Metadata.EqualsReflexive` | src/main/java/org/clapper/util/classutil/MethodInfo.java:187-199 | a record with a signature and a declaring class equals itself |
| `Metadata.EqualsSymmetric` | src/main/java/org/clapper/util/classutil/MethodInfo.java:187-199 | `a.equals(b)` exactly when `b.equals(a)` |
| `Metadata.EqualsImpliesSameHash` | src/main/java/org/clapper/util/classutil/MethodInfo.java:155-159 | equal records have equal hash codes |
| `Metadata.SameSignatureOtherClass` | src/main/java/org/clapper/util/classutil/MethodInfo.java:187-199 | the same signature in classes of different names compares as 0 but is not equal |
| `Metadata.CompareToAntisymmetric` | src/main/java/org/clapper/util/classutil/MethodInfo.java:171-174 | `a.compareTo(b)` is the negation of `b.compareTo(a)` |
| `Metadata.CompareToTransitive` | src/main/java/org/clapper/util/classutil/MethodInfo.java:171-174 | `a < b` and `b < c` give `a < c` |
| `JavaString.StartsWith` | src/main/java/org/clapper/util/classutil/MethodInfo.java:57 | true exactly when the prefix is no longer than the string and agrees with it character by character |
| `JavaString.Wrap32` | src/main/java/org/clapper/util/classutil/MethodInfo.java:158 | the Java `int` congruent to its argument modulo 2^32; the identity on `int` values |
| `JavaString.ReplaceChar` | src/main/java/org/clapper/util/classutil/ClassInfoClassVisitor.java:273 | same length; each occurrence of the character is replaced, every other character kept |
| `JavaString.ReplaceCharRoundTrip` | src/main/java/org/clapper/util/classutil/ClassInfoClassVisitor.java:273 | replacing `a` by `b` is undone by replacing `b` by `a` when there was no `b` |
| `JavaString.CompareTo` | src/main/java/org/clapper/util/classutil/MethodInfo.java:173 | zero exactly when the strings are equal |
| `JavaString.CompareToIsLexicographic` | src/main/java/org/clapper/util/classutil/MethodInfo.java:173 | negative exactly when the first string is lexicographically smaller: a proper prefix, or smaller at the first difference |
| `JavaString.CompareToAntisymmetric` | src/main/java/org/clapper/util/classutil/MethodInfo.java:173 | swapping the arguments negates the result |
| `JavaString.CompareToTransitive` | src/main/java/org/clapper/util/classutil/MethodInfo.java:173 | the order is transitive |
| `JavaString.HashCode` | src/main/java/org/clapper/util/classutil/MethodInfo.java:158 | a Java `int`, 0 for the empty string |
| `Scenarios.ConcreteAnnotationName` | src/main/java/org/clapper/util/classutil/ClassInfoClassVisitor.java:271-274 | descriptor `Lcom/foo/A;` names annotation type `com.foo.A` |
| `Scenarios.ConcreteSignatures` | src/main/java/org/clapper/util/classutil/ClassInfoClassVisitor.java:177-212 | field `count` of type `I` gets `I count`; method `run` with `(I)V` gets `run(I)V`, stored unchanged; generic `(TT;)V` is stored as `run(TT;)V` |
| `Scenarios.DoublyAnnotatedMethod` | src/main/java/org/clapper/util/classutil/ClassInfoClassVisitor.java:229-248 | two annotations on one method both reach the method, in order, the second through the restored snapshot |
| `Scenarios.StackedAnnotations` | src/main/java/org/clapper/util/classutil/ClassInfoClassVisitor.java:127-300 | a class annotated `A`, with one field annotated `A` and one method annotated `A`, `B`: the map holds the class under its dotted name, and each record holds exactly its own annotations |
| `Scenarios.UnannotatedClassFirstField` | src/main/java/org/clapper/util/classutil/ClassInfoClassVisitor.java:281-287 | in a class without annotations of its own, the first field's annotation is attached to the class and not to the field |
| `Scenarios.ParameterAnnotations` | src/main/java/org/clapper/util/classutil/ClassInfoClassVisitor.java:263-296 | a parameter annotation after a method annotation is attached nowhere; a single one on a method with no annotation of its own is attached to the method |
| `Scenarios.BareMethodWithTwoParameterAnnotations` | src/main/java/org/clapper/util/classutil/ClassInfoClassVisitor.java:263-296 | on a method without annotations, the first parameter annotation reaches the method; the second finds only PARAM set and reaches nothing |
| `Scenarios.TwoParameterAnnotations` | src/main/java/org/clapper/util/classutil/ClassInfoClassVisitor.java:263-296 | in an annotated class, a method with two parameter annotations and none of its own holds only the first |
| `Scenarios.UnannotatedClassParameterAnnotation` | src/main/java/org/clapper/util/classutil/ClassInfoClassVisitor.java:263-296 | in a class without annotations, a parameter annotation of its first method goes to the class, and the method holds none |

## Left out

- src/org/clapper/util/classutil/ClassModifiersClassNameFilter.java is not part of this model: it loads classes by reflection and tests one modifier mask.
- src/org/clapper/util/misc/Version.java is not part of this model: it does resource-bundle lookups, printing and process exit, and has no logic.
- The bytecode reader and its callback order are outside the model. The order is taken as given. The Java `assert currentClass != null` in `visitField`, `visitMethod` and `visitAnnotation` is a `requires`.
- ClassInfo.java, FieldInfo.java, AnnotationInfo.java and ClassDataPreservingClassVisitor.java (the superclass that keeps the class bytes) are not part of this model. Their records are reduced to the data the visitor reads and writes. The assumptions are listed here. The `ClassInfo` constructor computes the dotted class name, under which line 142 files the record. `ClassInfo.visitField` and `ClassInfo.visitMethod` each append one record built from their arguments, and the method record names that class as its declaring class. `AnnotationInfo.equals` compares type names only. The preserved bytes are a constructor argument of the visitor.
- Visitor.ClassInfoClassVisitor.VisitAnnotation: the call `currentClass.visitAnnotation(desc, visible)` at line 231 goes to code that is not part of this model. Its effect is not modelled: the model assumes it changes nothing the visitor reads.
- Visitor.AnnotationClassName: a descriptor shorter than two characters throws in Java. The model requires at least two characters instead.
- Metadata.MethodInfo.CompareTo: a null signature on either side throws `NullPointerException` in Java. The model requires both signatures.
- Metadata.MethodInfo.Equals: when the other object is a method record, a null signature on either side, or a null declaring class when the signatures agree, throws `NullPointerException` in Java. The model states these as `requires`. Against any other object the model, like the source, returns false with no requirement.
- Metadata.MethodInfo.HashCode: a null signature or declaring class throws in Java, and the model requires both. The contract states only that the result is a Java `int`. The property it serves is `Metadata.EqualsImpliesSameHash`; the exact value is not stated separately.
- JavaString.HashCode: the contract states only the range and the empty string; the exact value is the definition itself.
- JavaString.CompareTo: the model's characters are Unicode scalar values, while Java's are UTF-16 code units. Strings with characters outside the Basic Multilingual Plane hash and compare differently.
- The `BitSet` sharing at line 237 is modelled as a value `set<int>`. The visitor reads the snapshot only while the flags are empty, and line 299 replaces it before line 300 clears. So nothing observable differs.
- `getAnnotations` is the `annotations` field itself. The Java method returns the live list, which a caller could change; that is not modelled.
- `isAnnotationPresent(Class<?>)` is not modelled: it gets the name by reflection. Its only logic is the string version, which is modelled.
- The plain accessors (`getClassLocation`, `getAccess`, `getName`, `getDescription`, `getSignature`, `getExceptions`, `getDeclaringClass`) are the model's fields.
- Thread safety and sharing the caller's map between visitors are not modelled: one visitor runs alone.
- The other annotation-visitor callbacks are not modelled: `visitEnum`, `visitArray` and the nested `visitAnnotation(name, desc)`, which is commented out at ClassInfoClassVisitor.java lines 250-260. The visitor returns itself as the annotation visitor, so these calls go to the inherited superclass code, and ClassDataPreservingClassVisitor.java is not part of this model.
- The `version`, `visible` and `parameter` arguments are accepted and ignored, as in the source.
