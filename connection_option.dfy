/** DatabaseConnectionOption: provider and keyword validation for a database
    connection (src/db/DatabaseConnectionOption.py). */
module ConnectionOptions {
  import opened Text
  import opened Protection

  /** A Python value passed as a connection keyword, or stored in `options`. */
  datatype Value =
    | Chars(s: string)
    | Int(n: int)
    | NoneValue
    | List(items: seq<Value>)
    | Policy(p: ProtectionOption)
    | PolicyDict(d: map<string, DictValue>)

  datatype ConnError =
    | BadProvider(provider: string)        // ValueError
    | MissingRequired(parameter: string)   // ValueError
    | UnknownParameter                     // NameError (see Left out)
    | ProtectionTypeError                  // TypeError from force_type on a protection element
    | AttributeError                       // an element without to_dict
    | NotIterable                          // iterating a value that is not a collection

  const Providers: seq<string> := ["mysql"]

  function RequiredFor(provider: string): seq<string>
  {
    if provider == "mysql" then ["host", "username", "password"] else []
  }

  function OptionalFor(provider: string): seq<string>
  {
    if provider == "mysql" then ["port", "protection"] else []
  }

  /** The first required keyword, in declared order, that is missing. */
  function FirstMissing(required: seq<string>, kwargs: map<string, Value>): (r: Option<string>)
    ensures r.Some? ==> r.value in required && r.value !in kwargs
    ensures r.None? ==> forall k :: k in required ==> k in kwargs
  {
    if |required| == 0 then None
    else if required[0] !in kwargs then Some(required[0])
    else FirstMissing(required[1..], kwargs)
  }

  /** The checks made before any attribute is set, in the order the source makes them. */
  function CheckKeywords(provider: string, kwargs: map<string, Value>): (r: Option<ConnError>)
    ensures provider !in Providers ==> r == Some(BadProvider(provider))
    ensures provider in Providers && (exists k :: k in RequiredFor(provider) && k !in kwargs)
            ==> r.Some? && r.value.MissingRequired? && r.value.parameter !in kwargs
    ensures r.None? <==>
            && provider in Providers
            && (forall k :: k in RequiredFor(provider) ==> k in kwargs)
            && (forall k :: k in kwargs ==> k in RequiredFor(provider) || k in OptionalFor(provider))
  {
    if provider !in Providers then Some(BadProvider(provider))
    else match FirstMissing(RequiredFor(provider), kwargs)
      case Some(k) => Some(MissingRequired(k))
      case None =>
        if exists k :: k in kwargs && k !in RequiredFor(provider) && k !in OptionalFor(provider)
        then Some(UnknownParameter)
        else None
  }

  /** What the element check of the constructor lets through: None, or a
      collection whose every element is a ProtectionOption (an empty string or
      dict iterates no elements). */
  predicate ProtectionAccepted(v: Value)
  {
    || v.NoneValue?
    || v == Chars("")
    || v == PolicyDict(map[])
    || (v.List? && forall k :: 0 <= k < |v.items| ==> v.items[k].Policy?)
  }

  /** `options` after construction: every keyword as given, the optional
      ones that were absent set to None, and a None protection replaced by []. */
  function Filled(provider: string, kwargs: map<string, Value>): map<string, Value>
  {
    var withOptional := kwargs + map k | k in OptionalFor(provider) && k !in kwargs :: NoneValue;
    if "protection" in withOptional && withOptional["protection"] == NoneValue
    then withOptional["protection" := List([])]
    else withOptional
  }

  /** After construction every optional keyword is present; absent ones are
      None, an absent or None protection is the empty list, and the given
      keywords keep their values. */
  lemma FilledOptions(kwargs: map<string, Value>)
    ensures Filled("mysql", kwargs).Keys == kwargs.Keys + {"port", "protection"}
    ensures "port" !in kwargs ==> Filled("mysql", kwargs)["port"] == NoneValue
    ensures ("protection" !in kwargs || kwargs["protection"] == NoneValue)
            ==> Filled("mysql", kwargs)["protection"] == List([])
    ensures forall k :: (k in kwargs && !(k == "protection" && kwargs[k] == NoneValue)
                         ==> Filled("mysql", kwargs)[k] == kwargs[k])
  {
  }

  /** The protection list as to_dict rewrites it: each ProtectionOption by its dict. */
  function ConvertProtections(v: Value): (r: Result<Value, ConnError>)
    ensures v.List? && (forall k :: 0 <= k < |v.items| ==> v.items[k].Policy?)
            ==> r.Ok? && r.value.List? && |r.value.items| == |v.items|
                && forall k :: 0 <= k < |v.items| ==> r.value.items[k] == PolicyDict(ProtectionToDict(v.items[k].p))
  {
    match v
    case NoneValue => Ok(NoneValue)
    case List(items) =>
      if forall k :: 0 <= k < |items| ==> items[k].Policy?
      then Ok(List(seq(|items|, k requires 0 <= k < |items| => PolicyDict(ProtectionToDict(items[k].p)))))
      else Err(AttributeError)
    case Chars(s) => if s == "" then Ok(List([])) else Err(AttributeError)
    case PolicyDict(d) => if d == map[] then Ok(List([])) else Err(AttributeError)
    case Int(_) => Err(NotIterable)
    case Policy(_) => Err(NotIterable)
  }

  /** to_dict is not idempotent: once it has replaced a non-empty protection
      list by dicts, a second call fails on the first dict. */
  lemma ToDictTwiceFails(v: Value)
    requires v.List? && |v.items| > 0 && ConvertProtections(v).Ok?
    ensures ConvertProtections(ConvertProtections(v).value).Err?
  {
    var w := ConvertProtections(v).value;
    assert w.items[0].PolicyDict?;
  }

  datatype ConnDict = ConnDict(provider: string, options: map<string, Value>)

  class DatabaseConnectionOption {
    var provider: string
    var options: map<string, Value>

    ghost predicate Valid()
      reads this
    {
      "protection" in options
    }

    /** The attribute assignments of __init__, once the keywords passed the checks. */
    constructor Init(provider: string, kwargs: map<string, Value>)
      ensures this.provider == provider && options == Filled(provider, kwargs)
    {
      this.provider := provider;
      options := kwargs;
      new;
      var optional := OptionalFor(provider);
      for i := 0 to |optional|
        invariant this.provider == provider
        invariant options == kwargs + map k | k in optional[..i] && k !in kwargs :: NoneValue
      {
        if optional[i] !in options {
          options := options[optional[i] := NoneValue];
        }
        assert optional[..i + 1] == optional[..i] + [optional[i]];
      }
      assert optional[..|optional|] == optional;
      assert options == kwargs + map k | k in optional && k !in kwargs :: NoneValue;
      if "protection" in options && options["protection"] == NoneValue {
        options := options["protection" := List([])];
      }
    }

    /** DatabaseConnectionOption(provider, **kwargs): the keyword checks, then
        the defaults, then the element check of the protection list. */
    static method New(provider: string, kwargs: map<string, Value>) returns (r: Result<DatabaseConnectionOption, ConnError>)
      ensures CheckKeywords(provider, kwargs).Some? ==> r == Err(CheckKeywords(provider, kwargs).value)
      ensures CheckKeywords(provider, kwargs).None? && "protection" in kwargs && !ProtectionAccepted(kwargs["protection"])
              ==> r.Err?
      ensures r.Ok? ==> CheckKeywords(provider, kwargs).None?
      ensures CheckKeywords(provider, kwargs).None?
              && ProtectionAccepted(if "protection" in kwargs then kwargs["protection"] else NoneValue)
              ==> r.Ok?
      ensures r.Ok? ==> fresh(r.value) && r.value.provider == provider && r.value.options == Filled(provider, kwargs)
      ensures r.Ok? ==> r.value.Valid()
    {
      var check := CheckKeywords(provider, kwargs);
      if check.Some? {
        return Err(check.value);
      }
      var o := new DatabaseConnectionOption.Init(provider, kwargs);
      var p := if "protection" in kwargs then kwargs["protection"] else NoneValue;
      if !ProtectionAccepted(p) {
        return Err(if p.Int? || p.Policy? then NotIterable else ProtectionTypeError);
      }
      r := Ok(o);
    }

    /** to_dict: rewrites options['protection'] in place with each element's
        dict, then returns the provider and the (same) options. */
    method ToDict() returns (r: Result<ConnDict, ConnError>)
      requires Valid()
      modifies this
      ensures provider == old(provider)
      ensures match ConvertProtections(old(options["protection"]))
              case Err(e) => r == Err(e) && options == old(options)
              case Ok(p) => options == old(options)["protection" := p] && r == Ok(ConnDict(provider, options))
    {
      var v := options["protection"];
      if v != NoneValue {
        var prot: seq<Value> := [];
        match v {
          case List(items) =>
            for i := 0 to |items|
              invariant forall k :: 0 <= k < i ==> items[k].Policy?
              invariant |prot| == i
              invariant forall k :: 0 <= k < i ==> prot[k] == PolicyDict(ProtectionToDict(items[k].p))
            {
              if !items[i].Policy? {
                return Err(AttributeError);
              }
              prot := prot + [PolicyDict(ProtectionToDict(items[i].p))];
            }
            assert prot == seq(|items|, k requires 0 <= k < |items| => PolicyDict(ProtectionToDict(items[k].p)));
          case Chars(s) =>
            if s != "" {
              return Err(AttributeError);
            }
          case PolicyDict(d) =>
            if d != map[] {
              return Err(AttributeError);
            }
          case Int(_) =>
            return Err(NotIterable);
          case Policy(_) =>
            return Err(NotIterable);
        }
        options := options["protection" := List(prot)];
      }
      r := Ok(ConnDict(provider, options));
    }
  }
}
