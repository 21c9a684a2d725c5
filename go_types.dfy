/**
 * Go's run-time type descriptors (reflect.Type), reduced to what the
 * dispatcher inspects: the kind, the name, the package path, the element
 * of a pointer and the parameter and result lists of a func type.
 */
module GoTypes {

  /** reflect.Kind; Invalid is the kind of the zero reflect.Value. */
  datatype Kind =
    | Invalid | Bool | Int | Uint | Float | Complex | String
    | Array | Chan | Func | Interface | Map | Ptr | Slice | Struct | UnsafePointer

  /** The kinds that are neither pointers nor funcs, which carry no further structure here. */
  type PlainKind = k: Kind | k != Invalid && k != Func && k != Ptr witness Bool

  /**
   * A Go type.  Defined types are identified by name and package path, as in
   * Go; a type literal (`[]int`, `struct{}`, `map[string]T`) has no name and no
   * package path and is identified by its kind and its component types.
   */
  datatype Ty =
    | Pointer(elem: Ty)
    | FuncType(fname: string, fpkg: string, ins: seq<Ty>, outs: seq<Ty>)
    | Named(kind: PlainKind, name: string, pkgPath: string)
    | Literal(kind: PlainKind, parts: seq<Ty>)

  /** The interface type context.Context. */
  const ContextType: Ty := Named(Interface, "Context", "context")

  /** The predeclared interface type error. */
  const ErrorType: Ty := Named(Interface, "error", "")

  /** reflect.Type.Kind */
  function KindOf(t: Ty): (k: Kind)
    ensures k != Invalid
    ensures k == Ptr <==> t.Pointer?
    ensures k == Func <==> t.FuncType?
  {
    match t
    case Pointer(_) => Ptr
    case FuncType(_, _, _, _) => Func
    case Named(k, _, _) => k
    case Literal(k, _) => k
  }

  /** reflect.Type.Name: empty for every type that is not defined. */
  function Name(t: Ty): (n: string) {
    match t
    case Pointer(_) => ""
    case FuncType(n, _, _, _) => n
    case Named(_, n, _) => n
    case Literal(_, _) => ""
  }

  /** reflect.Type.PkgPath: empty for predeclared types and for type literals. */
  function PkgPath(t: Ty): (p: string) {
    match t
    case Pointer(_) => ""
    case FuncType(_, p, _, _) => p
    case Named(_, _, p) => p
    case Literal(_, _) => ""
  }

  /** go/token.IsExported: the name starts with an upper-case letter (ASCII letters only here). */
  predicate IsExported(name: string) {
    |name| > 0 && 'A' <= name[0] <= 'Z'
  }

  /** The number of pointer layers around a type. */
  function PointerDepth(t: Ty): (d: nat) {
    if t.Pointer? then 1 + PointerDepth(t.elem) else 0
  }

  /** `*...*t` with n stars. */
  function PointerTo(n: nat, t: Ty): (r: Ty) {
    if n == 0 then t else Pointer(PointerTo(n - 1, t))
  }

  /**
   * The type under all pointer layers.  Together with PointerDepth it
   * decomposes every type: t is PointerDepth(t) pointers around StripPointers(t).
   */
  function StripPointers(t: Ty): (b: Ty)
    ensures !b.Pointer?
    ensures PointerTo(PointerDepth(t), b) == t
  {
    if t.Pointer? then StripPointers(t.elem) else t
  }

  /** The verdict of isExportedOrBuiltinType, stated on the type under all pointers. */
  predicate ExportedOrBuiltin(t: Ty) {
    var b := StripPointers(t);
    IsExported(Name(b)) || PkgPath(b) == ""
  }

  /** Wrapping a type in pointers never changes the verdict. */
  lemma {:induction false} PointerLayersKeepVerdict(n: nat, t: Ty)
    ensures StripPointers(PointerTo(n, t)) == StripPointers(t)
    ensures ExportedOrBuiltin(PointerTo(n, t)) == ExportedOrBuiltin(t)
  {
    if n > 0 {
      PointerLayersKeepVerdict(n - 1, t);
    }
  }

  /**
   * isExportedOrBuiltinType: follow Elem() while the kind is Ptr, then accept
   * an exported name or an empty package path.
   */
  method IsExportedOrBuiltinType(t0: Ty) returns (ok: bool)
    ensures ok == ExportedOrBuiltin(t0)
  {
    var t := t0;
    while KindOf(t) == Ptr
      invariant StripPointers(t) == StripPointers(t0)
      decreases PointerDepth(t)
    {
      t := t.elem;
    }
    ok := IsExported(Name(t)) || PkgPath(t) == "";
  }
}
