/**
 * The framework's value holders: the RequestMethod enum, Request (the routing key, with
 * its equals and hashCode), Handler (a controller class and one of its methods), Param
 * (the request parameters a controller method receives) and Data (a JSON result).
 */
module Bean {
  import opened Base
  import opened JavaString

  /** The HTTP verbs a route is declared for. */
  datatype RequestMethod = GET | HEAD | POST | PUT | PATCH | DELETE | OPTIONS | TRACE {
    /** Enum.toString: the constant's name, which is spelt in upper-case ASCII letters. */
    function ToString(): (name: string)
      ensures |name| >= 3
      ensures forall k | 0 <= k < |name| :: 'A' <= name[k] <= 'Z'
    {
      match this
      case GET => "GET"
      case HEAD => "HEAD"
      case POST => "POST"
      case PUT => "PUT"
      case PATCH => "PATCH"
      case DELETE => "DELETE"
      case OPTIONS => "OPTIONS"
      case TRACE => "TRACE"
    }
  }

  /** Different verbs have different names, so a route's verb is recovered from its key. */
  lemma ToStringInjective(a: RequestMethod, b: RequestMethod)
    ensures a.ToString() == b.ToString() <==> a == b
  {
  }

  /** Upper-casing leaves a verb's name as it is. */
  lemma UpperAsciiKeepsVerbName(v: RequestMethod)
    ensures UpperAscii(v.ToString()) == v.ToString()
  {
    var name := v.ToString();
    assert forall k | 0 <= k < |name| :: UpperChar(name[k]) == name[k];
  }

  /** A request key: the verb's name and the path. */
  datatype Request = Request(requestMethod: string, requestPath: string)

  /**
   * A Java reference as Request.equals(Object) receives it: a Request object (identified
   * by `id`, carrying its fields), an object of another class, or null.
   */
  datatype JavaObject = RequestObject(id: nat, request: Request) | OtherObject(id: nat) | NullReference

  /**
   * The object `self` refers to is `r`: a reference that is `self` is the same object and
   * so carries the same fields.
   */
  predicate SameHeap(self: nat, r: Request, obj: JavaObject) {
    obj.RequestObject? && obj.id == self ==> obj.request == r
  }

  /**
   * equals of the Request `r` (the object `self`): the same reference is equal; anything
   * that is not a Request is not; otherwise paths and verbs are compared as strings.
   */
  function Equals(self: nat, r: Request, obj: JavaObject): (b: bool)
    requires SameHeap(self, r, obj)
    ensures b <==> obj.RequestObject? && obj.request.requestPath == r.requestPath
                   && obj.request.requestMethod == r.requestMethod
  {
    if obj.RequestObject? && obj.id == self then true
    else if !obj.RequestObject? then false
    else obj.request.requestPath == r.requestPath && obj.request.requestMethod == r.requestMethod
  }

  /** Two Request objects are equal exactly when they hold the same value. */
  lemma EqualsIsValueEquality(self: nat, r: Request, other: nat, s: Request)
    requires SameHeap(self, r, RequestObject(other, s))
    ensures Equals(self, r, RequestObject(other, s)) <==> r == s
  {
  }

  /** equals is reflexive: a Request equals itself, and every object holding the same fields. */
  lemma EqualsReflexive(self: nat, r: Request, other: nat)
    ensures Equals(self, r, RequestObject(self, r))
    ensures Equals(self, r, RequestObject(other, r))
  {
  }

  /** equals is symmetric. */
  lemma EqualsSymmetric(a: nat, r: Request, b: nat, s: Request)
    requires a == b ==> r == s
    ensures Equals(a, r, RequestObject(b, s)) == Equals(b, s, RequestObject(a, r))
  {
  }

  /** equals is transitive. */
  lemma EqualsTransitive(a: nat, r: Request, b: nat, s: Request, c: nat, t: Request)
    requires SameHeap(a, r, RequestObject(b, s)) && SameHeap(b, s, RequestObject(c, t))
    requires SameHeap(a, r, RequestObject(c, t))
    requires Equals(a, r, RequestObject(b, s)) && Equals(b, s, RequestObject(c, t))
    ensures Equals(a, r, RequestObject(c, t))
  {
  }

  /** Objects of other classes and null are never equal to a Request. */
  lemma NonRequestNeverEqual(self: nat, r: Request, other: nat)
    ensures !Equals(self, r, OtherObject(other)) && !Equals(self, r, NullReference)
  {
  }

  /** hashCode: result = 17, then result = 31 * result + h for the verb's and the path's hash, in int arithmetic. */
  function RequestHashCode(r: Request): (h: int)
    ensures -TWO_31 <= h < TWO_31
  {
    var result := 17;
    var result' := Wrap32(31 * result + HashCode(r.requestMethod));
    Wrap32(31 * result' + HashCode(r.requestPath))
  }

  /** The hash is 31 * (31 * 17 + h(verb)) + h(path), wrapped once to 32 bits, with h the unbounded string polynomial. */
  lemma RequestHashCodeClosedForm(r: Request)
    ensures RequestHashCode(r) == Wrap32(31 * (31 * 17 + HashPolynomial(r.requestMethod)) + HashPolynomial(r.requestPath))
  {
    var m, p := r.requestMethod, r.requestPath;
    HashCodeIsWrappedPolynomial(m);
    HashCodeIsWrappedPolynomial(p);
    var inner := Wrap32(31 * 17 + HashCode(m));
    InnerHashCongruent(m);
    Congruent31(inner, 31 * 17 + HashPolynomial(m), HashCode(p), HashPolynomial(p));
    WrapCongruent(31 * inner + HashCode(p), 31 * (31 * 17 + HashPolynomial(m)) + HashPolynomial(p));
  }

  /** The first step's wrapped value is congruent to 31 * 17 + h(verb). */
  lemma InnerHashCongruent(m: string)
    requires HashCode(m) == Wrap32(HashPolynomial(m))
    ensures (Wrap32(31 * 17 + HashCode(m)) - (31 * 17 + HashPolynomial(m))) % TWO_32 == 0
  {
    Congruent31(0, 0, 31 * 17 + HashCode(m), 31 * 17 + HashPolynomial(m));
    CongruentTransitive(Wrap32(31 * 17 + HashCode(m)), 31 * 17 + HashCode(m), 31 * 17 + HashPolynomial(m));
  }

  /** Congruence modulo 2^32 is transitive. */
  lemma CongruentTransitive(a: int, b: int, c: int)
    requires (a - b) % TWO_32 == 0 && (b - c) % TWO_32 == 0
    ensures (a - c) % TWO_32 == 0
  {
    var k1, k2 := (a - b) / TWO_32, (b - c) / TWO_32;
    assert a - c == (k1 + k2) * TWO_32;
    ModShift(0, k1 + k2);
  }

  /** One step of the hash, 31 * h + c, keeps congruence modulo 2^32. */
  lemma Congruent31(a: int, x: int, b: int, y: int)
    requires (a - x) % TWO_32 == 0 && (b - y) % TWO_32 == 0
    ensures ((31 * a + b) - (31 * x + y)) % TWO_32 == 0
  {
    var k1, k2 := (a - x) / TWO_32, (b - y) / TWO_32;
    assert (31 * a + b) - (31 * x + y) == (31 * k1 + k2) * TWO_32;
    ModShift(0, 31 * k1 + k2);
  }

  /** Objects that are equal have equal hash codes, as HashMap requires of its keys. */
  lemma EqualRequestsHashEqually(self: nat, r: Request, obj: JavaObject)
    requires SameHeap(self, r, obj) && Equals(self, r, obj)
    ensures obj.RequestObject? && RequestHashCode(obj.request) == RequestHashCode(r)
  {
  }

  /** A controller class and the name of the method that handles a route. */
  datatype Handler = Handler(controllerClass: ClassName, controllerMethod: string)

  type ClassName = string

  /** A request parameter value, as getParameter returns it. */
  type ParamValue = string

  /** The parameters of a request; a Param built without a map holds null. */
  datatype Param = Param(paramMap: Option<map<string, ParamValue>>) {
    /** getParamMap. */
    function GetParamMap(): (m: Option<map<string, ParamValue>>)
      ensures m == paramMap
    {
      paramMap
    }

    /** isEmpty: MapUtils.isEmpty, true for a null map and for a map without entries. */
    predicate IsEmpty() {
      paramMap.None? || paramMap.value == map[]
    }
  }

  /** new Param(): no map at all, so the Param is empty. */
  function NewParam(): (p: Param)
    ensures p.GetParamMap() == None
    ensures p.IsEmpty()
  {
    Param(None)
  }

  /** new Param(paramMap): holds exactly that map, and is empty exactly when the map is. */
  function NewParamOf(paramMap: map<string, ParamValue>): (p: Param)
    ensures p.GetParamMap() == Some(paramMap)
    ensures p.IsEmpty() <==> paramMap == map[]
  {
    Param(Some(paramMap))
  }

  /** The model object of a result, given by the JSON text fastjson writes for it. */
  type ModelObject = string

  /** A JSON result; its model may be null. */
  datatype Data = Data(model: Option<ModelObject>)
}
