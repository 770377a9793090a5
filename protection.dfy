/** KeyFob and ProtectionOption: declarative access policy records
    (src/db/ProtectionOption.py). */
module Protection {
  import opened Text

  /** The five capability keys; an absent key is None. */
  datatype KeyFob = KeyFob(ckey: Option<string>, rkey: Option<string>, ukey: Option<string>,
                           dkey: Option<string>, rnkey: Option<string>)

  /** A Python value passed as a KeyFob keyword argument. */
  datatype Arg = Str(s: string) | NotStr

  datatype PolicyError = TypeError(slot: string)

  const Slots: seq<string> := ["ckey", "rkey", "ukey", "dkey", "rnkey"]

  /** A keyword slot: the supplied string, or None when the keyword is absent. */
  function Slot(kwargs: map<string, Arg>, key: string): Option<string>
    requires key in kwargs ==> kwargs[key].Str?
  {
    if key in kwargs then Some(kwargs[key].s) else None
  }

  /** The first of the five slots, in checking order, holding a non-string. */
  function BadSlot(kwargs: map<string, Arg>, slots: seq<string>): (r: Option<string>)
    ensures r.Some? ==> r.value in slots && r.value in kwargs && kwargs[r.value].NotStr?
    ensures r.None? ==> forall k :: k in slots && k in kwargs ==> kwargs[k].Str?
  {
    if |slots| == 0 then None
    else if slots[0] in kwargs && kwargs[slots[0]].NotStr? then Some(slots[0])
    else BadSlot(kwargs, slots[1..])
  }

  /** KeyFob(**kwargs): validation of the five slots, then each slot from its keyword. */
  function NewKeyFob(kwargs: map<string, Arg>): (r: Result<KeyFob, PolicyError>)
    ensures r.Err? <==> exists k :: k in Slots && k in kwargs && kwargs[k].NotStr?
    ensures r.Ok? ==> forall k :: k in Slots && k in kwargs ==> kwargs[k].Str?
  {
    match BadSlot(kwargs, Slots)
    case Some(k) => Err(TypeError(k))
    case None =>
      Ok(KeyFob(Slot(kwargs, "ckey"), Slot(kwargs, "rkey"), Slot(kwargs, "ukey"),
                Slot(kwargs, "dkey"), Slot(kwargs, "rnkey")))
  }

  /** Each slot of a built KeyFob is the supplied string, or None when absent;
      keywords other than the five are ignored. */
  lemma NewKeyFobSlots(kwargs: map<string, Arg>, k: string)
    requires NewKeyFob(kwargs).Ok?
    requires k in Slots
    ensures k in kwargs ==> KeyFobToDict(NewKeyFob(kwargs).value)[k] == Some(kwargs[k].s)
    ensures k !in kwargs ==> KeyFobToDict(NewKeyFob(kwargs).value)[k] == None
  {
  }

  /** KeyFob.to_dict: exactly the five slot names, holding the slot values. */
  function KeyFobToDict(k: KeyFob): (d: map<string, Option<string>>)
    ensures d.Keys == {"ckey", "rkey", "ukey", "dkey", "rnkey"}
    ensures d["ckey"] == k.ckey && d["rkey"] == k.rkey && d["ukey"] == k.ukey
    ensures d["dkey"] == k.dkey && d["rnkey"] == k.rnkey
  {
    map["ckey" := k.ckey, "rkey" := k.rkey, "ukey" := k.ukey, "dkey" := k.dkey, "rnkey" := k.rnkey]
  }

  /** The dict loses nothing: a KeyFob is recovered from its to_dict. */
  function KeyFobFromDict(d: map<string, Option<string>>): KeyFob
    requires {"ckey", "rkey", "ukey", "dkey", "rnkey"} <= d.Keys
  {
    KeyFob(d["ckey"], d["rkey"], d["ukey"], d["dkey"], d["rnkey"])
  }

  lemma KeyFobDictRoundTrip(k: KeyFob)
    ensures KeyFobFromDict(KeyFobToDict(k)) == k
  {
  }

  /** The KeyFob built once when the module is loaded: the default `keys` of
      every ProtectionOption built without one. */
  const DefaultKeys: KeyFob := KeyFob(None, None, None, None, None)

  datatype ProtectionOption = ProtectionOption(name: string, exclude: bool, hide: bool, protect: bool,
                                               keys: KeyFob)

  /** ProtectionOption(name) with every default. */
  function DefaultProtection(name: string): (p: ProtectionOption)
    ensures p.name == name && !p.exclude && !p.hide && !p.protect && p.keys == DefaultKeys
    ensures IsUnprotected(p)
  {
    ProtectionOption(name, false, false, false, DefaultKeys)
  }

  /** Every ProtectionOption built without keys holds the one shared default KeyFob. */
  lemma DefaultKeysShared(name1: string, name2: string)
    ensures DefaultProtection(name1).keys == DefaultProtection(name2).keys
    ensures KeyFobToDict(DefaultProtection(name1).keys).Values == {None}
  {
    var d := KeyFobToDict(DefaultKeys);
    assert d["ckey"] == None;
  }

  predicate IsUnprotected(p: ProtectionOption)
  {
    !p.exclude && !p.hide && !p.protect
  }

  /** is_unprotected looks at the three flags only, never at the keys. */
  lemma IsUnprotectedIgnoresKeys(p: ProtectionOption, keys: KeyFob)
    ensures IsUnprotected(p) == IsUnprotected(p.(keys := keys))
    ensures IsUnprotected(p) <==> !(p.exclude || p.hide || p.protect)
  {
  }

  /** A value of ProtectionOption.to_dict. */
  datatype DictValue = Flag(b: bool) | Keys(keys: map<string, Option<string>>)

  /** ProtectionOption.to_dict: the three flags and the nested keys dict; the name is not included. */
  function ProtectionToDict(p: ProtectionOption): (d: map<string, DictValue>)
    ensures d.Keys == {"exclude", "hide", "protect", "keys"} && "name" !in d
    ensures d["exclude"] == Flag(p.exclude) && d["hide"] == Flag(p.hide) && d["protect"] == Flag(p.protect)
    ensures d["keys"] == Keys(KeyFobToDict(p.keys))
  {
    map["exclude" := Flag(p.exclude), "hide" := Flag(p.hide), "protect" := Flag(p.protect),
        "keys" := Keys(KeyFobToDict(p.keys))]
  }

  /** to_dict keeps everything but the name: two options differing only in
      name have the same dict, and otherwise the dicts differ. */
  lemma ProtectionToDictForgetsOnlyName(p: ProtectionOption, q: ProtectionOption)
    ensures ProtectionToDict(p) == ProtectionToDict(q) <==> p.(name := q.name) == q
  {
    if ProtectionToDict(p) == ProtectionToDict(q) {
      assert ProtectionToDict(p)["keys"] == ProtectionToDict(q)["keys"];
      KeyFobDictRoundTrip(p.keys);
      KeyFobDictRoundTrip(q.keys);
      assert ProtectionToDict(p)["exclude"] == ProtectionToDict(q)["exclude"];
      assert ProtectionToDict(p)["hide"] == ProtectionToDict(q)["hide"];
      assert ProtectionToDict(p)["protect"] == ProtectionToDict(q)["protect"];
    }
  }
}
