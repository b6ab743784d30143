/**
 * The Python plugin side (funppy/plugin.py): the module-level `functions`
 * dict filled by `register`, the DebugTalk servicer's GetNames and Call, and
 * how `serve` picks its port and announces itself to the host.
 */
module FunPy {
  import opened Wrappers
  import opened Text
  import GoConfig

  /** The Python type of a value, as far as Call's isinstance tests see it. */
  datatype PyKind = NoneType | Bool | Int | Float | Str | Dict | List | OtherKind(typeName: string)

  datatype PyValue<P> = PyValue(kind: PyKind, payload: P)

  /** What a registered Python function does with its positional arguments. */
  datatype Outcome<P> = Returned(value: PyValue<P>) | Raises(message: string)

  /** The exceptions Call raises (gRPC reports them to the host as call errors). */
  datatype PyError =
    | NotRegistered(name: string)       // "Function <name> not registered!"
    | ArgsNotJson                       // json.loads(request.args) raised
    | ArgsNotUnpackable(kind: PyKind)   // fn(*args) raised TypeError: the decoded value is not iterable
    | UnsupportedReturnType(kind: PyKind) // "Function return type <type> not supported!"
    | FunctionRaised(message: string)   // the registered function raised

  /** The decoded request arguments as `fn(*args)` sees them: the positional arguments it
      unpacks (the elements of a JSON array, the keys of an object, the characters of a
      string), or a decoded value it cannot unpack (null, a number or a boolean). */
  datatype Payload<P> = Unpacked(items: seq<PyValue<P>>) | NotIterable(kind: PyKind)

  /** How the result is turned into the response bytes: `str(value)` or `json.dumps(value)`. */
  datatype Encoding = ViaStr | ViaJson

  datatype Encoded<P> = Encoded(via: Encoding, value: PyValue<P>)

  /** The isinstance chain of Call. `bool` is a subclass of `int`, so booleans take the str branch. */
  function EncodingFor(k: PyKind): Option<Encoding> {
    match k
    case Int => Some(ViaStr)
    case Float => Some(ViaStr)
    case Bool => Some(ViaStr)
    case Str => Some(ViaJson)
    case Dict => Some(ViaJson)
    case List => Some(ViaJson)
    case NoneType => None
    case OtherKind(_) => None
  }

  /** Numbers are encoded with str, strings and containers as JSON, and anything else,
      None included, is refused. */
  lemma EncodingChoice(k: PyKind)
    ensures k in {Int, Float, Bool} <==> EncodingFor(k) == Some(ViaStr)
    ensures k in {Str, Dict, List} <==> EncodingFor(k) == Some(ViaJson)
    ensures (k == NoneType || k.OtherKind?) <==> EncodingFor(k) == None
  {
  }

  /** The module-level registry with the key order a Python dict keeps. */
  class Registry<P> {
    var names: seq<string>
    var functions: map<string, seq<PyValue<P>> -> Outcome<P>>

    ghost predicate Valid()
      reads this
    {
      && (forall n :: n in names <==> n in functions)
      && (forall i, j :: 0 <= i < j < |names| ==> names[i] != names[j])
    }

    constructor ()
      ensures Valid() && names == [] && functions == map[]
    {
      names := [];
      functions := map[];
    }

    /** register: stores or overwrites, so the last registration under a name wins;
        an overwritten name keeps its place in the key order. */
    method Register(funcName: string, fn: seq<PyValue<P>> -> Outcome<P>)
      requires Valid()
      modifies this
      ensures Valid()
      ensures functions == old(functions)[funcName := fn]
      ensures names == if funcName in old(functions) then old(names) else old(names) + [funcName]
    {
      if funcName !in functions {
        names := names + [funcName];
      }
      functions := functions[funcName := fn];
    }

    /** GetNames: list(functions.keys()), each registered name once. */
    function GetNames(): (r: seq<string>)
      requires Valid()
      reads this
      ensures forall n :: n in r <==> n in functions
      ensures forall i, j :: 0 <= i < j < |r| ==> r[i] != r[j]
    {
      names
    }

    /** Call: refuses an unknown name before decoding or running anything, unpacks the
        decoded arguments positionally, and encodes the result by its type. `args` is the
        result of json.loads on the request, None when that raised. */
    function Call(name: string, args: Option<Payload<P>>): (r: Result<Encoded<P>, PyError>)
      reads this
      ensures name !in functions ==> r == Failure(NotRegistered(name))
      ensures name in functions && args.None? ==> r == Failure(ArgsNotJson)
      ensures name in functions && args.Some? && args.value.NotIterable? ==>
        r == Failure(ArgsNotUnpackable(args.value.kind))
      ensures name in functions && args.Some? && args.value.Unpacked? ==>
        var outcome := functions[name](args.value.items);
        && (outcome.Raises? ==> r == Failure(FunctionRaised(outcome.message)))
        && (outcome.Returned? && EncodingFor(outcome.value.kind).Some? ==>
              r == Success(Encoded(EncodingFor(outcome.value.kind).value, outcome.value)))
        && (outcome.Returned? && EncodingFor(outcome.value.kind).None? ==>
              r == Failure(UnsupportedReturnType(outcome.value.kind)))
      ensures r.Success? ==>
        && name in functions && args.Some? && args.value.Unpacked?
        && functions[name](args.value.items) == Returned(r.value.value)
        && EncodingFor(r.value.value.kind) == Some(r.value.via)
      ensures r.Failure? && r.error.UnsupportedReturnType? ==>
        && name in functions && args.Some? && args.value.Unpacked?
        && functions[name](args.value.items).Returned?
        && functions[name](args.value.items).value.kind == r.error.kind
        && EncodingFor(r.error.kind) == None
    {
      if name !in functions then Failure(NotRegistered(name))
      else if args.None? then Failure(ArgsNotJson)
      else
        match args.value
        case NotIterable(k) => Failure(ArgsNotUnpackable(k))
        case Unpacked(items) =>
          match functions[name](items)
          case Raises(m) => Failure(FunctionRaised(m))
          case Returned(v) =>
            match EncodingFor(v.kind)
            case Some(via) => Success(Encoded(via, v))
            case None => Failure(UnsupportedReturnType(v.kind))
    }
  }

  // ---------------------------------------------------------------------------
  // serve

  const PortLow: int := 20000
  const PortHigh: int := 60000

  /** serve's port choice: `draw(i)` is the i-th random.randrange(20000, 60000) and
      `inUse` is check_available_port (true when the port cannot be bound). The loop
      re-draws while the drawn port is in use; `free` is a draw that is not. */
  method ChoosePort(draw: nat -> int, inUse: int -> bool, ghost free: nat) returns (port: int, attempts: nat)
    requires forall i :: PortLow <= draw(i) < PortHigh
    requires !inUse(draw(free))
    ensures PortLow <= port < PortHigh
    ensures port == draw(attempts) && !inUse(port)
    ensures forall j :: 0 <= j < attempts ==> inUse(draw(j))
  {
    attempts := 0;
    port := draw(0);
    while inUse(port)
      invariant port == draw(attempts) && attempts <= free
      invariant forall j :: 0 <= j < attempts ==> inUse(draw(j))
      decreases free - attempts
    {
      attempts := attempts + 1;
      port := draw(attempts);
    }
  }

  /** The line serve prints for the host: core protocol 1, app protocol 1, tcp, the address, grpc. */
  function HandshakeLine(port: nat): string {
    "1" + "|" + "1" + "|" + "tcp" + "|" + Address(port) + "|" + "grpc"
  }

  /** The address the plugin's server listens on. */
  function Address(port: nat): string {
    "127.0.0.1:" + Decimal(port)
  }

  /** The handshake line has exactly the five '|'-separated fields, and the app protocol
      field is the host's handshake protocol version. */
  lemma HandshakeFields(port: nat)
    ensures Split(HandshakeLine(port), "|") == ["1", "1", "tcp", Address(port), "grpc"]
    ensures Split(HandshakeLine(port), "|")[1] == Decimal(GoConfig.Handshake.protocolVersion)
  {
    var addr := Address(port);
    AbsentCharNotContained("1", '|');
    AbsentCharNotContained("tcp", '|');
    AbsentCharNotContained("grpc", '|');
    AddressHasNoBar(port);
    FiveFields("1", "1", "tcp", addr, "grpc");
    assert Decimal(1) == "1";
  }

  /** Five bar-free fields joined by '|' split back into those five fields. */
  lemma FiveFields(a: string, b: string, c: string, d: string, e: string)
    requires !Contains(a, "|") && !Contains(b, "|") && !Contains(c, "|")
    requires !Contains(d, "|") && !Contains(e, "|")
    ensures Split(a + "|" + b + "|" + c + "|" + d + "|" + e, "|") == [a, b, c, d, e]
  {
    var t4 := d + "|" + e;
    var t3 := c + "|" + t4;
    var t2 := b + "|" + t3;
    BarJoinRegroups(a, b, c, d, e);
    LoneField(e);
    FieldThenRest(d, e, [e]);
    FieldThenRest(c, t4, [d] + [e]);
    FieldThenRest(b, t3, [c] + ([d] + [e]));
    FieldThenRest(a, t2, [b] + ([c] + ([d] + [e])));
    FiveDisplay(a, b, c, d, e);
  }

  /** One field followed by '|' and the rest of a line. */
  lemma FieldThenRest(field: string, rest: string, fields: seq<string>)
    requires !Contains(field, "|") && Split(rest, "|") == fields
    ensures Split(field + "|" + rest, "|") == [field] + fields
  {
    SplitCons(field, "|", rest);
  }

  lemma FiveDisplay<T>(a: T, b: T, c: T, d: T, e: T)
    ensures [a] + ([b] + ([c] + ([d] + [e]))) == [a, b, c, d, e]
  {
  }

  lemma LoneField(e: string)
    requires !Contains(e, "|")
    ensures Split(e, "|") == [e]
  {
  }

  lemma BarJoinRegroups(a: string, b: string, c: string, d: string, e: string)
    ensures a + "|" + b + "|" + c + "|" + d + "|" + e == a + "|" + (b + "|" + (c + "|" + (d + "|" + e)))
  {
  }

  lemma AddressHasNoBar(port: nat)
    ensures !Contains(Address(port), "|")
  {
    var addr := Address(port);
    assert forall i :: 10 <= i < |addr| ==> IsDigit(addr[i]);
    AbsentCharNotContained(addr, '|');
  }

  /** The address field names the chosen port: what follows "127.0.0.1:" reads back as the port. */
  lemma HandshakePort(port: nat)
    ensures var fields := Split(HandshakeLine(port), "|");
      |fields| == 5 && var addr := fields[3];
      IsPrefix("127.0.0.1:", addr)
      && (forall i :: 10 <= i < |addr| ==> IsDigit(addr[i]))
      && ParseDecimal(addr[10..]) == port
  {
    HandshakeFields(port);
    var addr := Address(port);
    assert addr[10..] == Decimal(port);
    ParseDecimalOfDecimal(port);
  }
}
