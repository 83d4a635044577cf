/**
 * `DefaultWssConverterFactory`: a converter factory that builds converters
 * from creators registered per class and memoizes what it built, separately
 * for the response direction (text to application type) and the request
 * direction (application type to text). Both maps of a direction are keyed by
 * the raw class of the requested type.
 */
module DefaultConverters {
  import opened Base
  import opened Conversion

  /** A creator registered with `put*Converter`: builds a converter for a type token, or throws. */
  type Creator = TypeToken -> Result<ConverterId>

  /** One direction's state: the creators and the converters initialized so far. */
  datatype MemoTable = MemoTable(creators: map<TypeId, Creator>, initialized: map<TypeId, ConverterId>)

  /** The state of a freshly constructed factory, in either direction. */
  const EmptyTable := MemoTable(map[], map[])

  /** What `get*Converter` does: returns a converter, returns null (`Ok(None)`), or throws. */
  type Found = Result<Option<ConverterId>>

  /** The call returned a converter. */
  predicate IsConverter(r: Found)
  {
    r.Ok? && r.value.Some?
  }

  /** The converter a lookup returns, or its null or its throw, and the table it leaves. */
  datatype Lookup = Lookup(result: Found, table: MemoTable)

  /** `after` keeps every entry of `before`, with the same value. */
  predicate Extends(before: map<TypeId, ConverterId>, after: map<TypeId, ConverterId>)
  {
    before.Keys <= after.Keys && forall k :: k in before ==> after[k] == before[k]
  }

  /**
   * Whether a lookup of `token` builds a converter: no converter is cached for
   * its class, a creator is registered, and that creator does not throw.
   */
  predicate Creates(t: MemoTable, token: TypeToken)
  {
    token.raw !in t.initialized && token.raw in t.creators && t.creators[token.raw](token).Ok?
  }

  /** `tryCreate*Converter`: the registered creator for the raw class, applied to the full token. */
  function TryCreate(t: MemoTable, token: TypeToken): (r: Found)
    ensures r == Ok(None) <==> token.raw !in t.creators
    ensures IsConverter(r) <==> token.raw in t.creators && t.creators[token.raw](token).Ok?
    ensures IsConverter(r) ==> r.value.value == t.creators[token.raw](token).value
    ensures r.Err? ==> token.raw in t.creators && t.creators[token.raw](token) == Err(r.error)
  {
    if token.raw !in t.creators then Ok(None)
    else match t.creators[token.raw](token)
      case Ok(c) => Ok(Some(c))
      case Err(e) => Err(e)
  }

  /**
   * `get*Converter`: answer from the cache, or create, cache and answer, or
   * answer null; a creator that throws leaves the cache as it was.
   */
  function Memo(t: MemoTable, token: TypeToken): (r: Lookup)
    ensures r.table.creators == t.creators
    ensures Extends(t.initialized, r.table.initialized)
    ensures token.raw in t.initialized ==> r == Lookup(Ok(Some(t.initialized[token.raw])), t)
    ensures token.raw !in t.initialized ==> r.result == TryCreate(t, token)
    ensures IsConverter(r.result) <==> token.raw in t.initialized || Creates(t, token)
    ensures IsConverter(r.result) ==>
      token.raw in r.table.initialized && r.table.initialized[token.raw] == r.result.value.value
    ensures !IsConverter(r.result) ==> r.table == t
    ensures r.table.initialized.Keys == t.initialized.Keys + (if Creates(t, token) then {token.raw} else {})
  {
    if token.raw in t.initialized then Lookup(Ok(Some(t.initialized[token.raw])), t)
    else match TryCreate(t, token)
      case Ok(Some(c)) => Lookup(Ok(Some(c)), t.(initialized := t.initialized[token.raw := c]))
      case other => Lookup(other, t)
  }

  /** `put*Converter`: replaces the creator for one class; converters already built stay in use. */
  function Put(t: MemoTable, cls: TypeId, creator: Creator): (r: MemoTable)
    ensures r.initialized == t.initialized
    ensures cls in r.creators && r.creators[cls] == creator
    ensures forall k :: k in t.creators && k != cls ==> k in r.creators && r.creators[k] == t.creators[k]
    ensures r.creators.Keys == t.creators.Keys + {cls}
    ensures forall tok: TypeToken :: tok.raw in t.initialized ==> Memo(r, tok) == Lookup(Ok(Some(t.initialized[tok.raw])), r)
  {
    t.(creators := t.creators[cls := creator])
  }

  /**
   * `responseBodyConverter`/`requestBodyConverter`: the lookup, with `!!`
   * turning null into a throw; a creator's throw passes through.
   */
  function BodyConverter(t: MemoTable, token: TypeToken): (r: Result<ConverterId>)
    ensures r.Ok? <==> token.raw in t.initialized || Creates(t, token)
    ensures r.Ok? ==> Memo(t, token).result == Ok(Some(r.value))
    ensures token.raw !in t.initialized && token.raw !in t.creators ==> r == Err(NullPointer)
    ensures token.raw !in t.initialized && token.raw in t.creators && r.Err? ==> r == t.creators[token.raw](token)
  {
    match Memo(t, token).result
    case Ok(Some(c)) => Ok(c)
    case Ok(None) => Err(NullPointer)
    case Err(e) => Err(e)
  }

  /** What a factory call reports to its caller, given what the body converter did. */
  function AsAnswer(r: Result<ConverterId>): Answer
  {
    match r
    case Ok(c) => Converter(c)
    case Err(e) => Threw(e)
  }

  /**
   * The factory as the session sees it while its two tables are `response`
   * and `request`. It never answers null: where it has nothing it throws.
   */
  function AsFactory(response: MemoTable, request: MemoTable): (f: Factory)
    ensures forall tok: TypeToken :: !f.responseBodyConverter(tok).NoConverter? && !f.requestBodyConverter(tok).NoConverter?
    ensures forall tok: TypeToken ::
      f.responseBodyConverter(tok).Converter? <==> tok.raw in response.initialized || Creates(response, tok)
    ensures forall tok: TypeToken ::
      f.requestBodyConverter(tok).Converter? <==> tok.raw in request.initialized || Creates(request, tok)
    ensures forall tok: TypeToken :: tok.raw !in response.initialized && tok.raw !in response.creators ==>
      f.responseBodyConverter(tok) == Threw(NullPointer)
    ensures forall tok: TypeToken :: tok.raw !in request.initialized && tok.raw !in request.creators ==>
      f.requestBodyConverter(tok) == Threw(NullPointer)
    ensures forall tok: TypeToken :: f.responseBodyConverter(tok).Converter? ==>
      Memo(response, tok).result == Ok(Some(f.responseBodyConverter(tok).id))
    ensures forall tok: TypeToken :: f.requestBodyConverter(tok).Converter? ==>
      Memo(request, tok).result == Ok(Some(f.requestBodyConverter(tok).id))
    ensures forall tok: TypeToken :: f.responseBodyConverter(tok).Threw? && tok.raw !in response.initialized && tok.raw in response.creators ==>
      response.creators[tok.raw](tok) == Err(f.responseBodyConverter(tok).error)
    ensures forall tok: TypeToken :: f.requestBodyConverter(tok).Threw? && tok.raw !in request.initialized && tok.raw in request.creators ==>
      request.creators[tok.raw](tok) == Err(f.requestBodyConverter(tok).error)
  {
    Factory(tok => AsAnswer(BodyConverter(response, tok)), tok => AsAnswer(BodyConverter(request, tok)))
  }

  /** The results of a run of lookups, in order, the table after the last one, and the tokens converters were built for. */
  datatype Lookups = Lookups(results: seq<Found>, table: MemoTable, creations: seq<TypeToken>)

  /**
   * Lookups one after another. Every converter returned is the one cached for
   * its class at the end, so two lookups of the same raw class that return a
   * converter return the same one, whatever their type arguments.
   */
  function LookupAll(t: MemoTable, tokens: seq<TypeToken>): (r: Lookups)
    ensures |r.results| == |tokens|
    ensures r.table.creators == t.creators
    ensures Extends(t.initialized, r.table.initialized)
    ensures forall i :: 0 <= i < |tokens| && IsConverter(r.results[i]) ==>
      tokens[i].raw in r.table.initialized && r.table.initialized[tokens[i].raw] == r.results[i].value.value
    ensures forall i, j ::
      (0 <= i < |tokens| && 0 <= j < |tokens| && tokens[i].raw == tokens[j].raw
        && IsConverter(r.results[i]) && IsConverter(r.results[j]))
      ==> r.results[i] == r.results[j]
    decreases |tokens|
  {
    if tokens == [] then Lookups([], t, [])
    else
      var first := Memo(t, tokens[0]);
      var rest := LookupAll(first.table, tokens[1..]);
      var created := if Creates(t, tokens[0]) then [tokens[0]] else [];
      Lookups([first.result] + rest.results, rest.table, created + rest.creations)
  }

  /**
   * How a lookup in a run answers, in terms of the table the run starts
   * with: a class cached at the start answers with its cached converter; a
   * class with neither a converter nor a creator answers null; a throw is the
   * class's own creator throwing; and a creator that does not throw for the
   * token means a converter is returned.
   */
  lemma {:induction false} LookupAllAnswers(t: MemoTable, tokens: seq<TypeToken>, i: nat)
    requires i < |tokens|
    ensures tokens[i].raw in t.initialized ==> LookupAll(t, tokens).results[i] == Ok(Some(t.initialized[tokens[i].raw]))
    ensures tokens[i].raw !in t.initialized && tokens[i].raw !in t.creators ==> LookupAll(t, tokens).results[i] == Ok(None)
    ensures LookupAll(t, tokens).results[i].Err? ==>
      tokens[i].raw !in t.initialized && tokens[i].raw in t.creators
      && t.creators[tokens[i].raw](tokens[i]) == Err(LookupAll(t, tokens).results[i].error)
    ensures tokens[i].raw in t.creators && t.creators[tokens[i].raw](tokens[i]).Ok? ==>
      IsConverter(LookupAll(t, tokens).results[i])
    decreases |tokens|
  {
    if i > 0 {
      var first := Memo(t, tokens[0]);
      LookupAllAnswers(first.table, tokens[1..], i - 1);
      assert tokens[1..][i - 1] == tokens[i];
      assert LookupAll(t, tokens).results[i] == LookupAll(first.table, tokens[1..]).results[i - 1];
    }
  }

  /**
   * The converters a run of lookups built were built for classes with nothing
   * cached at the start that are cached at the end, and never twice for one
   * class.
   */
  predicate CreatedOncePerClass(t: MemoTable, r: Lookups)
  {
    && (forall i :: 0 <= i < |r.creations| ==>
          r.creations[i].raw !in t.initialized && r.creations[i].raw in r.table.initialized)
    && (forall i, j :: 0 <= i < j < |r.creations| ==> r.creations[i].raw != r.creations[j].raw)
  }

  /** Over a run of lookups, at most one converter is built per class, and none for a class cached at the start. */
  lemma {:induction false} LookupAllCreatesOnce(t: MemoTable, tokens: seq<TypeToken>)
    ensures CreatedOncePerClass(t, LookupAll(t, tokens))
    decreases |tokens|
  {
    if tokens != [] {
      var first := Memo(t, tokens[0]);
      var rest := LookupAll(first.table, tokens[1..]);
      LookupAllCreatesOnce(first.table, tokens[1..]);
      var created := if Creates(t, tokens[0]) then [tokens[0]] else [];
      var all := created + rest.creations;
      assert LookupAll(t, tokens) == Lookups([first.result] + rest.results, rest.table, all);
      assert t.initialized.Keys <= first.table.initialized.Keys <= rest.table.initialized.Keys;
      forall i | 0 <= i < |all|
        ensures all[i].raw !in t.initialized && all[i].raw in rest.table.initialized
      {
        if i >= |created| {
          assert all[i] == rest.creations[i - |created|];
        }
      }
      forall i, j | 0 <= i < j < |all|
        ensures all[i].raw != all[j].raw
      {
        assert all[j] == rest.creations[j - |created|];
        if i >= |created| {
          assert all[i] == rest.creations[i - |created|];
        } else {
          assert all[j].raw !in first.table.initialized;
        }
      }
    }
  }

  /**
   * Conversely, a lookup in a run that returns a converter for a class not
   * cached at the start was served by a converter the run built for that class.
   */
  lemma {:induction false} LookupAllBuildsWhatItServes(t: MemoTable, tokens: seq<TypeToken>, i: nat)
    requires i < |tokens|
    requires IsConverter(LookupAll(t, tokens).results[i]) && tokens[i].raw !in t.initialized
    ensures exists j :: 0 <= j < |LookupAll(t, tokens).creations| && LookupAll(t, tokens).creations[j].raw == tokens[i].raw
    decreases |tokens|
  {
    var first := Memo(t, tokens[0]);
    var rest := LookupAll(first.table, tokens[1..]);
    var created := if Creates(t, tokens[0]) then [tokens[0]] else [];
    assert LookupAll(t, tokens) == Lookups([first.result] + rest.results, rest.table, created + rest.creations);
    if i == 0 || tokens[i].raw in first.table.initialized {
      assert Creates(t, tokens[0]) && tokens[0].raw == tokens[i].raw;
      assert (created + rest.creations)[0] == tokens[0];
    } else {
      assert tokens[1..][i - 1] == tokens[i];
      assert IsConverter(rest.results[i - 1]);
      LookupAllBuildsWhatItServes(first.table, tokens[1..], i - 1);
      var k :| 0 <= k < |rest.creations| && rest.creations[k].raw == tokens[i].raw;
      assert (created + rest.creations)[k + |created|] == rest.creations[k];
    }
  }

  /** The factory object: four hash maps, two per direction, updated in place. */
  class DefaultWssConverterFactory {
    var responseConverterCreators: map<TypeId, Creator>
    var initializedResponseConverters: map<TypeId, ConverterId>
    var requestConverterCreators: map<TypeId, Creator>
    var initializedRequestConverters: map<TypeId, ConverterId>

    /** The response direction's maps. */
    function ResponseTable(): MemoTable
      reads this
    {
      MemoTable(responseConverterCreators, initializedResponseConverters)
    }

    /** The request direction's maps. */
    function RequestTable(): MemoTable
      reads this
    {
      MemoTable(requestConverterCreators, initializedRequestConverters)
    }

    constructor ()
      ensures ResponseTable() == EmptyTable && RequestTable() == EmptyTable
    {
      responseConverterCreators := map[];
      initializedResponseConverters := map[];
      requestConverterCreators := map[];
      initializedRequestConverters := map[];
    }

    method ResponseBodyConverter(token: TypeToken) returns (r: Result<ConverterId>)
      modifies this`initializedResponseConverters
      ensures r == BodyConverter(old(ResponseTable()), token)
      ensures ResponseTable() == Memo(old(ResponseTable()), token).table
      ensures RequestTable() == old(RequestTable())
    {
      var c := GetResponseConverter(token);
      if c.Err? {
        r := Err(c.error);
      } else if c.value.None? {
        r := Err(NullPointer);
      } else {
        r := Ok(c.value.value);
      }
    }

    method RequestBodyConverter(token: TypeToken) returns (r: Result<ConverterId>)
      modifies this`initializedRequestConverters
      ensures r == BodyConverter(old(RequestTable()), token)
      ensures RequestTable() == Memo(old(RequestTable()), token).table
      ensures ResponseTable() == old(ResponseTable())
    {
      var c := GetRequestConverter(token);
      if c.Err? {
        r := Err(c.error);
      } else if c.value.None? {
        r := Err(NullPointer);
      } else {
        r := Ok(c.value.value);
      }
    }

    method PutResponseConverter(clazz: TypeId, converter: Creator)
      modifies this`responseConverterCreators
      ensures ResponseTable() == Put(old(ResponseTable()), clazz, converter)
      ensures RequestTable() == old(RequestTable())
    {
      responseConverterCreators := responseConverterCreators[clazz := converter];
    }

    method PutRequestConverter(clazz: TypeId, converter: Creator)
      modifies this`requestConverterCreators
      ensures RequestTable() == Put(old(RequestTable()), clazz, converter)
      ensures ResponseTable() == old(ResponseTable())
    {
      requestConverterCreators := requestConverterCreators[clazz := converter];
    }

    method GetResponseConverter(token: TypeToken) returns (result: Found)
      modifies this`initializedResponseConverters
      ensures Lookup(result, ResponseTable()) == Memo(old(ResponseTable()), token)
    {
      var rawType := token.raw;
      result := Ok(if rawType in initializedResponseConverters then Some(initializedResponseConverters[rawType]) else None);
      if result.value.None? {
        result := TryCreateResponseConverter(token);
        if IsConverter(result) {
          initializedResponseConverters := initializedResponseConverters[rawType := result.value.value];
        }
      }
    }

    method GetRequestConverter(token: TypeToken) returns (result: Found)
      modifies this`initializedRequestConverters
      ensures Lookup(result, RequestTable()) == Memo(old(RequestTable()), token)
    {
      var rawType := token.raw;
      result := Ok(if rawType in initializedRequestConverters then Some(initializedRequestConverters[rawType]) else None);
      if result.value.None? {
        result := TryCreateRequestConverter(token);
        if IsConverter(result) {
          initializedRequestConverters := initializedRequestConverters[rawType := result.value.value];
        }
      }
    }

    method TryCreateResponseConverter(token: TypeToken) returns (r: Found)
      ensures r == TryCreate(ResponseTable(), token)
    {
      var rawType := token.raw;
      if rawType in responseConverterCreators {
        var created := responseConverterCreators[rawType](token);
        r := if created.Ok? then Ok(Some(created.value)) else Err(created.error);
      } else {
        r := Ok(None);
      }
    }

    method TryCreateRequestConverter(token: TypeToken) returns (r: Found)
      ensures r == TryCreate(RequestTable(), token)
    {
      var rawType := token.raw;
      if rawType in requestConverterCreators {
        var created := requestConverterCreators[rawType](token);
        r := if created.Ok? then Ok(Some(created.value)) else Err(created.error);
      } else {
        r := Ok(None);
      }
    }
  }

  /** What a caller can conclude from the contracts alone. */
  method MemoizationClient(list: TypeId, a: TypeId, b: TypeId)
    requires a != b
  {
    var f := new DefaultWssConverterFactory();
    var missing := f.ResponseBodyConverter(ClassToken(list));
    assert missing == Err(NullPointer);
    f.PutResponseConverter(list, (tok: TypeToken) => if tok.args == [ClassToken(a)] then Ok(1) else Ok(2));
    var first := f.ResponseBodyConverter(TypeToken(list, [ClassToken(a)]));
    assert first == Ok(1);
    var second := f.ResponseBodyConverter(TypeToken(list, [ClassToken(b)]));
    assert second == Ok(1);  // keyed by raw class: the converter built for List<a> serves List<b>
    f.PutResponseConverter(list, tok => Ok(3));
    var third := f.ResponseBodyConverter(ClassToken(list));
    assert third == Ok(1);   // a new creator does not replace the initialized converter
    var request := f.RequestBodyConverter(ClassToken(list));
    assert request == Err(NullPointer);  // the request direction has its own maps
    f.PutRequestConverter(list, tok => Err(Thrown(7)));
    var thrown := f.RequestBodyConverter(ClassToken(list));
    assert thrown == Err(Thrown(7));     // a creator's throw passes through
    assert f.RequestTable().initialized == map[];  // and nothing is cached
  }
}
