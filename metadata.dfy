/**
 * The metadata records the visitor builds: `AnnotationInfo`, `FieldInfo`,
 * `ClassInfo` and `MethodInfo`. `MethodInfo` follows
 * src/main/java/org/clapper/util/classutil/MethodInfo.java; the other three
 * are not part of this model's source and are the smallest records the
 * visitor needs (see README).
 */
module Metadata {
  import opened Wrappers
  import JavaString

  /** A constant value or annotation value: a Java `Object`, left abstract. */
  type Value(==)

  /** One byte of a class file. */
  newtype Byte = x: int | 0 <= x < 256

  /** A (parameter name, value) pair of an annotation. */
  datatype NameValue = NameValue(name: string, value: Value)

  /**
   * An annotation: its type name (null until it is set) and its parameters
   * in the order they were supplied.
   */
  datatype AnnotationInfo = AnnotationInfo(className: Option<string>, params: seq<NameValue>)

  /** `new AnnotationInfo()` followed by `setClassName(className)`. */
  function NewAnnotation(className: string): (a: AnnotationInfo)
    ensures a.className == Some(className) && a.params == []
  {
    AnnotationInfo(Some(className), [])
  }

  /** `AnnotationInfo.equals`: annotations are equal when their type names are, whatever their parameters. */
  function SameAnnotation(a: AnnotationInfo, b: AnnotationInfo): (r: bool)
    ensures r <==> a.className == b.className
  {
    a.className == b.className
  }

  /** `AnnotationInfo.equals` is an equivalence, as `List.contains` needs. */
  lemma SameAnnotationIsEquivalence(a: AnnotationInfo, b: AnnotationInfo, c: AnnotationInfo)
    ensures SameAnnotation(a, a)
    ensures SameAnnotation(a, b) <==> SameAnnotation(b, a)
    ensures SameAnnotation(a, b) && SameAnnotation(b, c) ==> SameAnnotation(a, c)
  {
  }

  /** `List.contains(probe)` over annotations compared with `SameAnnotation`. */
  function ContainsAnnotation(list: seq<AnnotationInfo>, probe: AnnotationInfo): (r: bool)
    ensures r <==> exists i :: 0 <= i < |list| && SameAnnotation(probe, list[i])
  {
    if list == [] then false
    else SameAnnotation(probe, list[0]) || ContainsAnnotation(list[1..], probe)
  }

  /**
   * The external (dotted) form of a JVM internal class name: every `/`
   * package separator becomes `.` (Java Virtual Machine Specification,
   * section 4.2.1).
   */
  function ExternalName(internalName: string): (r: string)
    ensures |r| == |internalName|
    ensures '/' !in r
    ensures forall i :: 0 <= i < |r| ==> r[i] == (if internalName[i] == '/' then '.' else internalName[i])
  {
    var r := JavaString.ReplaceChar(internalName, '/', '.');
    assert forall i :: 0 <= i < |r| ==> r[i] != '/';
    r
  }

  /** An internal name (which never holds a `.`) is recovered from its external form. */
  lemma ExternalNameRoundTrip(internalName: string)
    requires '.' !in internalName
    ensures JavaString.ReplaceChar(ExternalName(internalName), '.', '/') == internalName
  {
    JavaString.ReplaceCharRoundTrip(internalName, '/', '.');
  }

  /** A name with no package separator is its own external form. */
  lemma ExternalNameOfSimpleName(simpleName: string)
    requires '/' !in simpleName
    ensures ExternalName(simpleName) == simpleName
  {
    var r := ExternalName(simpleName);
    forall i | 0 <= i < |r| ensures r[i] == simpleName[i] {
      assert simpleName[i] in simpleName;
    }
  }

  /** The conversion works package by package: each separator becomes a `.`. */
  lemma ExternalNameOfQualifiedName(packageName: string, rest: string)
    ensures ExternalName(packageName + "/" + rest) == ExternalName(packageName) + "." + ExternalName(rest)
  {
    var whole, p, q := ExternalName(packageName + "/" + rest), ExternalName(packageName), ExternalName(rest);
    forall i | 0 <= i < |whole| ensures whole[i] == (p + "." + q)[i] {
      if i > |packageName| {
        assert (packageName + "/" + rest)[i] == rest[i - |packageName| - 1];
      }
    }
  }

  /** A field record: what the class-file field declaration said, and its annotations. */
  class FieldInfo {
    const access: int
    const name: string
    const description: string
    const signature: string
    const value: Option<Value>
    var annotations: seq<AnnotationInfo>

    constructor (access: int, name: string, description: string, signature: string, value: Option<Value>)
      ensures this.access == access && this.name == name && this.description == description
      ensures this.signature == signature && this.value == value
      ensures annotations == []
    {
      this.access := access;
      this.name := name;
      this.description := description;
      this.signature := signature;
      this.value := value;
      annotations := [];
    }

    method AddAnnotation(annotation: AnnotationInfo)
      modifies this
      ensures annotations == old(annotations) + [annotation]
    {
      annotations := annotations + [annotation];
    }
  }

  /**
   * A class record: its dotted name and declaration data, the bytes it was
   * read from, and its fields, methods and annotations in declaration order.
   */
  class ClassInfo {
    const className: string
    const superClassName: Option<string>
    const interfaces: Option<seq<string>>
    const access: int
    const location: string
    var bytecode: Option<seq<Byte>>
    var fields: seq<FieldInfo>
    var methods: seq<MethodInfo>
    var annotations: seq<AnnotationInfo>

    /** Built from the internal name, which is converted to the dotted form. */
    constructor (name: string, superName: Option<string>, interfaces: Option<seq<string>>,
                 access: int, location: string)
      ensures className == ExternalName(name)
      ensures superClassName == superName && this.interfaces == interfaces
      ensures this.access == access && this.location == location
      ensures bytecode == None && fields == [] && methods == [] && annotations == []
    {
      className := ExternalName(name);
      superClassName := superName;
      this.interfaces := interfaces;
      this.access := access;
      this.location := location;
      bytecode := None;
      fields, methods, annotations := [], [], [];
    }

    method SetBytecode(bytes: Option<seq<Byte>>)
      modifies this
      ensures bytecode == bytes
      ensures fields == old(fields) && methods == old(methods) && annotations == old(annotations)
    {
      bytecode := bytes;
    }

    /** Appends one new field record built from the declaration. */
    method VisitField(access: int, name: string, description: string, signature: string, value: Option<Value>)
      modifies this
      ensures |fields| == |old(fields)| + 1 && fields[..|old(fields)|] == old(fields)
      ensures fresh(fields[|fields| - 1])
      ensures fields[|fields| - 1].access == access && fields[|fields| - 1].name == name
      ensures fields[|fields| - 1].description == description
      ensures fields[|fields| - 1].signature == signature && fields[|fields| - 1].value == value
      ensures fields[|fields| - 1].annotations == []
      ensures methods == old(methods) && annotations == old(annotations) && bytecode == old(bytecode)
    {
      var f := new FieldInfo(access, name, description, signature, value);
      fields := fields + [f];
    }

    /** Appends one new method record, declared by this class, built from the declaration. */
    method VisitMethod(access: int, name: string, description: string, signature: string,
                       exceptions: Option<seq<string>>)
      modifies this
      ensures |methods| == |old(methods)| + 1 && methods[..|old(methods)|] == old(methods)
      ensures fresh(methods[|methods| - 1])
      ensures methods[|methods| - 1].access == access && methods[|methods| - 1].name == Some(name)
      ensures methods[|methods| - 1].description == Some(description)
      ensures methods[|methods| - 1].signature == NormalizeSignature(Some(name), Some(signature))
      ensures methods[|methods| - 1].exceptions == exceptions
      ensures methods[|methods| - 1].declaringClass == this
      ensures methods[|methods| - 1].annotations == []
      ensures fields == old(fields) && annotations == old(annotations) && bytecode == old(bytecode)
    {
      var m := new MethodInfo(access, Some(name), Some(description), Some(signature), exceptions, this);
      methods := methods + [m];
    }

    method AddAnnotation(annotation: AnnotationInfo)
      modifies this
      ensures annotations == old(annotations) + [annotation]
      ensures fields == old(fields) && methods == old(methods) && bytecode == old(bytecode)
    {
      annotations := annotations + [annotation];
    }
  }

  /**
   * The signature `MethodInfo` stores: a signature that is a bare parameter
   * list, starting with `(`, gets the method name in front of it; anything
   * else, null included, is kept as given.
   */
  function NormalizeSignature(name: Option<string>, signature: Option<string>): (r: Option<string>)
    ensures r.None? <==> signature.None?
    ensures name.Some? && signature.Some? && JavaString.StartsWith(signature.value, "(") ==>
              r.value == name.value + signature.value
    ensures !(name.Some? && signature.Some? && JavaString.StartsWith(signature.value, "(")) ==>
              r == signature
  {
    if signature.Some? && JavaString.StartsWith(signature.value, "(") && name.Some?
    then Some(name.value + signature.value)
    else signature
  }

  /**
   * Normalisation keeps the parameter list and puts the name before it,
   * and two (name, parameter list) pairs whose names hold no `(` are
   * stored as the same signature only when they are the same pair.
   */
  lemma NormalizeSignatureInjective(n1: string, s1: string, n2: string, s2: string)
    requires '(' !in n1 && '(' !in n2
    requires JavaString.StartsWith(s1, "(") && JavaString.StartsWith(s2, "(")
    ensures NormalizeSignature(Some(n1), Some(s1)).value[|n1|..] == s1
    ensures (NormalizeSignature(Some(n1), Some(s1)) == NormalizeSignature(Some(n2), Some(s2)))
              <==> (n1 == n2 && s1 == s2)
  {
    assert (n1 + s1)[|n1|..] == s1;
    assert s1[0] == '(' && s2[0] == '(' by {
      assert s1[..1][0] == s1[0] && s2[..1][0] == s2[0];
    }
    if n1 + s1 == n2 + s2 {
      JavaString.SplitAtFirst('(', n1, s1, n2, s2);
    }
  }

  /**
   * A generic signature that starts with a type-parameter list (`<`) is not
   * prefixed: two methods of different names with the same such signature
   * store the same signature.
   */
  lemma GenericSignatureKeepsNoName(n1: string, n2: string, s: string)
    requires s != [] && s[0] == '<'
    ensures NormalizeSignature(Some(n1), Some(s)) == Some(s)
    ensures NormalizeSignature(Some(n1), Some(s)) == NormalizeSignature(Some(n2), Some(s))
  {
  }

  /**
   * A method record. Everything but its annotation list is fixed by the
   * constructor; the annotation list only grows.
   */
  class MethodInfo {
    const access: int
    const name: Option<string>
    const description: Option<string>
    const signature: Option<string>
    const exceptions: Option<seq<string>>
    const declaringClass: ClassInfo?
    var annotations: seq<AnnotationInfo>

    /** `new MethodInfo()`: nothing set. */
    constructor Empty()
      ensures access == 0 && name == None && description == None && signature == None
      ensures exceptions == None && declaringClass == null && annotations == []
    {
      access := 0;
      name, description, signature, exceptions := None, None, None, None;
      declaringClass := null;
      annotations := [];
    }

    constructor (access: int, name: Option<string>, description: Option<string>,
                 signature: Option<string>, exceptions: Option<seq<string>>,
                 declaringClass: ClassInfo?)
      ensures this.access == access && this.name == name && this.description == description
      ensures this.signature == NormalizeSignature(name, signature)
      ensures this.exceptions == exceptions && this.declaringClass == declaringClass
      ensures annotations == []
    {
      this.access := access;
      this.name := name;
      this.description := description;
      this.signature := NormalizeSignature(name, signature);
      this.exceptions := exceptions;
      this.declaringClass := declaringClass;
      annotations := [];
    }

    /** Appends to the annotation list; every annotation present before still is, and so is this one. */
    method AddAnnotation(annotation: AnnotationInfo)
      modifies this
      ensures annotations == old(annotations) + [annotation]
      ensures annotation.className.Some? ==> IsAnnotationPresent(annotation.className.value)
      ensures forall desc :: old(IsAnnotationPresent(desc)) ==> IsAnnotationPresent(desc)
    {
      annotations := annotations + [annotation];
      assert annotations[|annotations| - 1] == annotation;
      forall desc | old(IsAnnotationPresent(desc)) ensures IsAnnotationPresent(desc) {
        var i :| 0 <= i < |old(annotations)| && old(annotations)[i].className == Some(desc);
        assert annotations[i] == old(annotations)[i];
      }
    }

    /** Whether an annotation of type `desc` is attached, whatever its parameters. */
    function IsAnnotationPresent(desc: string): (r: bool)
      reads this
      ensures r <==> exists i :: 0 <= i < |annotations| && annotations[i].className == Some(desc)
    {
      ContainsAnnotation(annotations, NewAnnotation(desc))
    }

    /** `hashCode`: the sum, in Java `int` arithmetic, of the two string hashes. */
    function HashCode(): (r: int)
      requires signature.Some? && declaringClass != null
      ensures JavaString.IsInt32(r)
    {
      JavaString.Wrap32(JavaString.HashCode(signature.value)
                        + JavaString.HashCode(declaringClass.className))
    }

    /** `compareTo`: the lexicographic order of the signatures. */
    function CompareTo(other: MethodInfo): (r: int)
      requires signature.Some? && other.signature.Some?
      ensures r == 0 <==> signature == other.signature
      ensures r < 0 <==> JavaString.LexLess(signature.value, other.signature.value)
    {
      JavaString.CompareToIsLexicographic(signature.value, other.signature.value);
      JavaString.CompareTo(signature.value, other.signature.value)
    }

    /**
     * `equals`: `other` is a method record with the same signature, declared
     * by a class of the same name. The declaring classes are only looked at
     * when the signatures agree.
     */
    function Equals(other: object?): (r: bool)
      requires other is MethodInfo ==> signature.Some? && (other as MethodInfo).signature.Some?
      requires other is MethodInfo && (other as MethodInfo).signature == signature ==>
                 declaringClass != null && (other as MethodInfo).declaringClass != null
      ensures r <==> other is MethodInfo && (other as MethodInfo).signature == signature &&
                     declaringClass.className == (other as MethodInfo).declaringClass.className
    {
      if other is MethodInfo then
        var o := other as MethodInfo;
        CompareTo(o) == 0 && declaringClass.className == o.declaringClass.className
      else
        false
    }

    /** What `toString` prints after the class name: the signature, else the name. */
    function Label(): (r: Option<string>)
      ensures signature.Some? ==> r == signature
      ensures signature.None? ==> r == name
    {
      if signature.Some? then signature else name
    }

    /**
     * `toString`: the label, qualified by the declaring class's name when
     * there is one (a null label then prints as "null").
     */
    function ToString(): (r: Option<string>)
      ensures declaringClass == null ==> r == Label()
      ensures declaringClass != null ==>
                r.Some? && JavaString.StartsWith(r.value, declaringClass.className + ".") &&
                r.value[|declaringClass.className| + 1..] == Label().GetOr("null")
    {
      if declaringClass != null then
        Some(declaringClass.className + "." + Label().GetOr("null"))
      else
        Label()
    }
  }

  /**
   * When the label holds no `.` (method names and most signatures; a
   * generic signature naming an inner class of a parameterised class does
   * hold one), the printed form splits at its last `.` back into the class
   * name and the label.
   */
  lemma ToStringSplits(m: MethodInfo)
    requires m.declaringClass != null && m.Label().Some? && '.' !in m.Label().value
    ensures var s := m.ToString().value;
            var k := JavaString.LastIndexOf(s, '.');
            k >= 0 && s[..k] == m.declaringClass.className && s[k + 1..] == m.Label().value
  {
    var cn, l := m.declaringClass.className, m.Label().value;
    var s := m.ToString().value;
    assert s == cn + "." + l;
    var k := JavaString.LastIndexOf(s, '.');
    assert s[|cn|] == '.';
    forall i | |cn| < i < |s| ensures s[i] != '.' {
      assert s[i] == l[i - |cn| - 1];
    }
    assert k == |cn|;
    assert s[..k] == cn;
    assert s[k + 1..] == l;
  }

  /** `equals` is reflexive on records it can be asked about. */
  lemma EqualsReflexive(m: MethodInfo)
    requires m.signature.Some? && m.declaringClass != null
    ensures m.Equals(m)
  {
  }

  /** `equals` is symmetric. */
  lemma EqualsSymmetric(a: MethodInfo, b: MethodInfo)
    requires a.signature.Some? && a.declaringClass != null
    requires b.signature.Some? && b.declaringClass != null
    ensures a.Equals(b) <==> b.Equals(a)
  {
  }

  /** Equal records have equal hash codes. */
  lemma EqualsImpliesSameHash(a: MethodInfo, b: MethodInfo)
    requires a.signature.Some? && a.declaringClass != null
    requires b.signature.Some? && b.declaringClass != null
    requires a.Equals(b)
    ensures a.HashCode() == b.HashCode()
  {
  }

  /**
   * The same signature in classes of different names: `compareTo` says 0
   * but `equals` says no, so the ordering is coarser than equality.
   */
  lemma SameSignatureOtherClass(a: MethodInfo, b: MethodInfo)
    requires a.signature.Some? && a.signature == b.signature
    requires a.declaringClass != null && b.declaringClass != null
    requires a.declaringClass.className != b.declaringClass.className
    ensures a.CompareTo(b) == 0 && !a.Equals(b)
  {
  }

  /**
   * Two methods of one class with different names and the same generic
   * signature (one starting with a type-parameter list) are equal, since
   * neither stored signature carries the name.
   */
  lemma GenericSignaturesOfOneClassEqual(a: MethodInfo, b: MethodInfo, n1: string, n2: string, s: string)
    requires s != [] && s[0] == '<'
    requires a.signature == NormalizeSignature(Some(n1), Some(s))
    requires b.signature == NormalizeSignature(Some(n2), Some(s))
    requires a.declaringClass != null && a.declaringClass == b.declaringClass
    ensures a.Equals(b) && b.Equals(a)
  {
    GenericSignatureKeepsNoName(n1, n2, s);
  }

  /** `equals` against anything that is not a method record, `null` included, is false. */
  lemma EqualsNonRecord(m: MethodInfo, other: object?)
    requires !(other is MethodInfo)
    ensures !m.Equals(other)
  {
  }

  /** `compareTo` is antisymmetric. */
  lemma CompareToAntisymmetric(a: MethodInfo, b: MethodInfo)
    requires a.signature.Some? && b.signature.Some?
    ensures a.CompareTo(b) == -b.CompareTo(a)
  {
    JavaString.CompareToAntisymmetric(a.signature.value, b.signature.value);
  }

  /** `compareTo` is transitive. */
  lemma CompareToTransitive(a: MethodInfo, b: MethodInfo, c: MethodInfo)
    requires a.signature.Some? && b.signature.Some? && c.signature.Some?
    requires a.CompareTo(b) < 0 && b.CompareTo(c) < 0
    ensures a.CompareTo(c) < 0
  {
    JavaString.CompareToTransitive(a.signature.value, b.signature.value, c.signature.value);
  }
}
