/**
 * FloTalk messages and message signatures (src/flotalk/message.rs).
 *
 * Signatures are interned: `ID_FOR_SIGNATURE` and `SIGNATURE_FOR_ID` map signatures to ids and
 * back, and `NEXT_SIGNATURE_ID` supplies each new id. `SignatureTable` is those three globals as
 * a value and `InternSignature` the pure specification of `TalkMessageSignature::id`;
 * `SignatureRegistry` holds them as state.
 */
module TalkMessages {
  import opened Wrappers
  import opened TalkValues

  /** An expression of the parsed program (opaque: only whether an argument has one matters). */
  datatype TalkExpression = TalkExpression(key: nat)

  /** `TalkArgument`: a keyword and, except in a unary message, the expression of its value. */
  datatype TalkArgument = TalkArgument(name: TalkSymbol, value: Option<TalkExpression>)

  // ---------------------------------------------------------------------------------------
  // Specification of the signature table

  /** `NEXT_SIGNATURE_ID`, `ID_FOR_SIGNATURE` and `SIGNATURE_FOR_ID`. */
  datatype SignatureTable = SignatureTable(
    next: nat,
    ids: map<TalkMessageSignature, SignatureId>,
    signatures: map<SignatureId, TalkMessageSignature>)

  /** The two maps are inverse to each other and every id was drawn from the counter. */
  ghost predicate Inverse(t: SignatureTable)
  {
    && (forall s :: s in t.ids ==> t.ids[s].id < t.next && t.ids[s] in t.signatures && t.signatures[t.ids[s]] == s)
    && (forall i :: i in t.signatures ==> i.id < t.next && t.signatures[i] in t.ids && t.ids[t.signatures[i]] == i)
  }

  /** The empty table, where both maps are empty and the counter is zero. */
  function EmptyTable(): (t: SignatureTable)
  {
    SignatureTable(0, map[], map[])
  }

  lemma EmptyTableIsInverse()
    ensures Inverse(EmptyTable())
  {
  }

  /**
   * `TalkMessageSignature::id` on the table (lines 92-117): a known signature keeps its id; a
   * new one gets the counter's value, the counter moves on by one and both maps record it.
   */
  function InternSignature(t: SignatureTable, s: TalkMessageSignature): (SignatureTable, SignatureId)
  {
    if s in t.ids then (t, t.ids[s])
    else
      var id := SignatureId(t.next);
      (SignatureTable(t.next + 1, t.ids[s := id], t.signatures[id := s]), id)
  }

  /** Interning keeps the maps inverse to each other. */
  lemma InternSignatureKeepsInverse(t: SignatureTable, s: TalkMessageSignature)
    requires Inverse(t)
    ensures Inverse(InternSignature(t, s).0)
  {
    if s !in t.ids {
      assert SignatureId(t.next) !in t.signatures;
    }
  }

  /** `id()` is idempotent: a second call with the same signature returns the same id and changes nothing. */
  lemma InternSignatureIdempotent(t: SignatureTable, s: TalkMessageSignature)
    ensures var (t1, id) := InternSignature(t, s);
      InternSignature(t1, s) == (t1, id)
  {
  }

  /**
   * A new signature gets the counter's current value and the counter increases by one; a known
   * one changes nothing; ids given out before keep their signatures.
   */
  lemma InternSignatureFresh(t: SignatureTable, s: TalkMessageSignature)
    ensures var (t1, id) := InternSignature(t, s);
      && (s !in t.ids ==> id == SignatureId(t.next) && t1.next == t.next + 1)
      && (s in t.ids ==> t1 == t)
      && (forall s' :: s' in t.ids ==> s' in t1.ids && t1.ids[s'] == t.ids[s'])
  {
  }

  /** Round trip: the id returned for a signature maps back to it (`id(s).to_signature() == s`). */
  lemma InternSignatureRoundTrip(t: SignatureTable, s: TalkMessageSignature)
    requires Inverse(t)
    ensures var (t1, id) := InternSignature(t, s);
      id in t1.signatures && t1.signatures[id] == s
  {
  }

  /** Distinct signatures get distinct ids, and equal signatures equal ids. */
  lemma InternSignatureInjective(t: SignatureTable, a: TalkMessageSignature, b: TalkMessageSignature)
    requires Inverse(t)
    ensures var (t1, idA) := InternSignature(t, a);
      var (t2, idB) := InternSignature(t1, b);
      idA == idB <==> a == b
  {
    InternSignatureKeepsInverse(t, a);
    var (t1, idA) := InternSignature(t, a);
    InternSignatureRoundTrip(t, a);
    InternSignatureRoundTrip(t1, b);
    InternSignatureFresh(t1, b);
  }

  // ---------------------------------------------------------------------------------------
  // Signatures built from parsed arguments

  /** `TalkMessageSignature::is_unary` (lines 173-178). */
  function IsUnary(s: TalkMessageSignature): (b: bool)
    ensures b <==> s.Unary?
    ensures b ==> Len(s) == 0
  {
    match s
    case Unary(_) => true
    case Arguments(_) => false
  }

  /** `TalkMessageSignature::len` (lines 183-188): the number of arguments. */
  function Len(s: TalkMessageSignature): (n: nat)
    ensures s.Arguments? ==> n == |s.symbols|
    ensures s.Unary? ==> n == 0
  {
    match s
    case Unary(_) => 0
    case Arguments(symbols) => |symbols|
  }

  /**
   * `arguments_are_unary` (lines 136-155), following the iterator: no first argument, or a
   * first argument with a value, is not unary; otherwise it is unary when nothing follows.
   */
  function ArgumentsAreUnary(args: seq<TalkArgument>): (r: bool)
    ensures r <==> |args| == 1 && args[0].value.None?
  {
    if |args| == 0 then false
    else if args[0].value.None? then |args[1..]| == 0
    else false
  }

  /** The names of a list of arguments, in order. */
  function Names(args: seq<TalkArgument>): (r: seq<TalkSymbol>)
    ensures |r| == |args| && forall i :: 0 <= i < |args| ==> r[i] == args[i].name
  {
    seq(|args|, i requires 0 <= i < |args| => args[i].name)
  }

  /**
   * `from_expression_arguments` (lines 160-168): a single argument without a value names a
   * unary message; anything else is a keyword signature listing the names in order.
   */
  function FromExpressionArguments(args: seq<TalkArgument>): (r: TalkMessageSignature)
  {
    if |args| == 1 && args[0].value.None? then TalkMessageSignature.Unary(args[0].name)
    else Arguments(Names(args))
  }

  /**
   * The signature built from parsed arguments is unary exactly when the arguments are unary;
   * otherwise it has one symbol per argument, the argument names in order.
   */
  lemma FromExpressionArgumentsShape(args: seq<TalkArgument>)
    ensures IsUnary(FromExpressionArguments(args)) <==> ArgumentsAreUnary(args)
    ensures ArgumentsAreUnary(args) ==> FromExpressionArguments(args) == TalkMessageSignature.Unary(args[0].name)
    ensures !ArgumentsAreUnary(args) ==>
      && Len(FromExpressionArguments(args)) == |args|
      && forall i :: 0 <= i < |args| ==> FromExpressionArguments(args).symbols[i] == args[i].name
  {
  }

  /** A signature is unary exactly when it has no arguments and is not the empty keyword list. */
  lemma IsUnaryLen(s: TalkMessageSignature)
    ensures IsUnary(s) ==> Len(s) == 0
    ensures Len(s) > 0 ==> !IsUnary(s)
    ensures !IsUnary(s) && Len(s) == 0 <==> s == Arguments([])
  {
  }

  /**
   * The loop of `TalkMessage::with_arguments` (lines 49-52): the keywords and the values of the
   * arguments, split apart in order.
   */
  method SplitArguments(arguments: seq<(TalkSymbol, TalkValue)>) returns (symbols: seq<TalkSymbol>, values: seq<TalkValue>)
    ensures |symbols| == |arguments| && |values| == |arguments|
    ensures forall i :: 0 <= i < |arguments| ==> symbols[i] == arguments[i].0 && values[i] == arguments[i].1
  {
    symbols := [];
    values := [];
    for i := 0 to |arguments|
      invariant |symbols| == i && |values| == i
      invariant forall k :: 0 <= k < i ==> symbols[k] == arguments[k].0 && values[k] == arguments[k].1
    {
      symbols := symbols + [arguments[i].0];
      values := values + [arguments[i].1];
    }
  }

  // ---------------------------------------------------------------------------------------
  // The global signature table

  /** `NEXT_SIGNATURE_ID`, `ID_FOR_SIGNATURE` and `SIGNATURE_FOR_ID`. */
  class SignatureRegistry {
    var nextSignatureId: nat
    var idForSignature: map<TalkMessageSignature, SignatureId>
    var signatureForId: map<SignatureId, TalkMessageSignature>

    ghost function Table(): SignatureTable
      reads this
    {
      SignatureTable(nextSignatureId, idForSignature, signatureForId)
    }

    ghost predicate Valid()
      reads this
    {
      Inverse(Table())
    }

    constructor ()
      ensures Valid() && Table() == EmptyTable()
    {
      nextSignatureId := 0;
      idForSignature := map[];
      signatureForId := map[];
    }

    /** `TalkMessageSignature::id` (lines 92-117), specified by `InternSignature`. */
    method Id(s: TalkMessageSignature) returns (id: SignatureId)
      requires Valid()
      modifies this
      ensures Valid()
      ensures (Table(), id) == InternSignature(old(Table()), s)
      ensures id in signatureForId && signatureForId[id] == s
    {
      InternSignatureKeepsInverse(Table(), s);
      if s in idForSignature {
        id := idForSignature[s];
        return;
      }
      id := SignatureId(nextSignatureId);
      nextSignatureId := nextSignatureId + 1;
      idForSignature := idForSignature[s := id];
      signatureForId := signatureForId[id := s];
    }

    /** `TalkMessageSignatureId::to_signature` (lines 195-197); an unknown id panics. */
    function ToSignature(id: SignatureId): (s: TalkMessageSignature)
      reads this
      requires Valid() && id in signatureForId
      ensures s in idForSignature && idForSignature[s] == id
    {
      signatureForId[id]
    }

    /** `TalkMessage::signature` (lines 80-85): the signature of the message's id. */
    function Signature(message: TalkMessage): (s: TalkMessageSignature)
      reads this
      requires Valid() && message.id in signatureForId
      ensures s in idForSignature && idForSignature[s] == SignatureIdOf(message)
    {
      match message
      case Unary(id) => ToSignature(id)
      case WithArguments(id, _) => ToSignature(id)
    }

    /** `TalkMessage::unary` (lines 38-40). */
    method UnaryMessage(symbol: TalkSymbol) returns (message: TalkMessage)
      requires Valid()
      modifies this
      ensures Valid()
      ensures (Table(), message.id) == InternSignature(old(Table()), TalkMessageSignature.Unary(symbol))
      ensures message.Unary? && Signature(message) == TalkMessageSignature.Unary(symbol)
    {
      var id := Id(TalkMessageSignature.Unary(symbol));
      message := TalkMessage.Unary(id);
    }

    /**
     * `TalkMessage::with_arguments` (lines 45-55): the signature lists the keywords and the
     * message carries the values, both in the order given.
     */
    method WithArgumentsMessage(arguments: seq<(TalkSymbol, TalkValue)>) returns (message: TalkMessage)
      requires Valid()
      modifies this
      ensures Valid()
      ensures message.WithArguments? && |message.args| == |arguments| && message.id in signatureForId
      ensures forall i :: 0 <= i < |arguments| ==> message.args[i] == arguments[i].1
      ensures Signature(message).Arguments? && |Signature(message).symbols| == |arguments|
      ensures forall i :: 0 <= i < |arguments| ==> Signature(message).symbols[i] == arguments[i].0
      ensures (Table(), message.id) == InternSignature(old(Table()), Signature(message))
    {
      var symbols, values := SplitArguments(arguments);
      var id := Id(Arguments(symbols));
      message := WithArguments(id, values);
    }
  }
}
