/**
 * The pure checks of the command-line tool: which names `init` accepts for
 * a new ARgorithm, the config file `init` writes, how `submit` and `update`
 * turn the name they are given into the ARgorithm's name, the check they
 * make of the config file before uploading it, and how `render_menu` turns
 * the option typed in into an ARgorithm.
 */
module Cli {
  import opened Values
  import opened Text
  import Maps

  /** A character of the class `[A-Za-z_]`. */
  predicate IsNameChar(c: char)
  {
    'A' <= c <= 'Z' || 'a' <= c <= 'z' || c == '_'
  }

  /**
   * `valid_funcname(x)`: whether `re.match(r"[A-Za-z_]+", x)` finds a
   * match. The match is anchored at the start only, so this looks at the
   * first character alone.
   */
  predicate ValidFuncname(x: string)
  {
    x != [] && IsNameChar(x[0])
  }

  /**
   * The regular expression's own reading: some non-empty prefix of `x` is
   * made of name characters.
   */
  predicate MatchesNamePrefix(x: string)
  {
    exists n :: 1 <= n <= |x| && AllNameChars(x[..n])
  }

  predicate AllNameChars(s: string)
  {
    forall i :: 0 <= i < |s| ==> IsNameChar(s[i])
  }

  /** The check accepts exactly the names the regular expression matches. */
  lemma ValidFuncnameIsMatch(x: string)
    ensures ValidFuncname(x) <==> MatchesNamePrefix(x)
  {
    if ValidFuncname(x) {
      assert AllNameChars(x[..1]);
    }
    if MatchesNamePrefix(x) {
      var n :| 1 <= n <= |x| && AllNameChars(x[..n]);
      assert x[..n][0] == x[0];
    }
  }

  /** Only the first character counts: a name may go on with anything at all. */
  lemma ValidFuncnameFirstOnly(c: char, rest: string)
    ensures ValidFuncname([c] + rest) <==> IsNameChar(c)
  {
  }

  /** `name[-3:] == ".py"`. */
  predicate EndsWithPy(name: string)
  {
    |name| >= 3 && name[|name| - 3..] == ".py"
  }

  /**
   * `funcname[:-3] if funcname[-3:] == ".py" else funcname`. A name shorter
   * than three characters is its own last three characters, so it never
   * loses anything.
   */
  function StripPy(name: string): string
  {
    if EndsWithPy(name) then name[..|name| - 3] else name
  }

  /** Stripping undoes adding the suffix, once: `a.py.py` becomes `a.py`. */
  lemma {:induction false} StripPyInverse(stem: string)
    ensures StripPy(stem + ".py") == stem
  {
    var name := stem + ".py";
    assert name[|name| - 3..] == ".py";
    assert name[..|name| - 3] == stem;
  }

  /** A name without the suffix is kept as it is. */
  lemma StripPyKeeps(name: string)
    requires !EndsWithPy(name)
    ensures StripPy(name) == name
  {
  }

  /** Stripping removes the suffix only when it is there. */
  lemma {:induction false} StripPyRestores(name: string)
    ensures EndsWithPy(name) ==> StripPy(name) + ".py" == name
    ensures !EndsWithPy(name) ==> StripPy(name) == name
  {
    if EndsWithPy(name) {
      assert name == name[..|name| - 3] + name[|name| - 3..];
    }
  }

  /**
   * The config `init` writes for `funcname`, which is also the template
   * `submit` and `update` check a config against: the same six keys with
   * the same values.
   */
  function Template(funcname: string): (r: Maps.Dict)
  {
    [(VStr("argorithmID"), VStr(funcname)),
     (VStr("file"), VStr(funcname + ".py")),
     (VStr("function"), VStr("run")),
     (VStr("parameters"), VDict([])),
     (VStr("default"), VDict([])),
     (VStr("description"), VStr(""))]
  }

  /** The file `init`'s config names strips back to the ARgorithm's name. */
  lemma TemplateFileStrips(funcname: string)
    ensures Maps.Lookup(Template(funcname), VStr("file")) == Some(VStr(funcname + ".py"))
    ensures StripPy(funcname + ".py") == funcname
  {
    StripPyInverse(funcname);
  }

  /** What the config check reports: acceptance, or the key it stopped at. */
  datatype Verdict = Accepted | Missing(key: Val) | Unnecessary(key: Val) | WrongType(key: Val)

  /** The line the tool prints when the check fails. */
  function FailMessage(funcname: string, v: Verdict): string
  {
    match v
    case Accepted => ""
    case Missing(k) => "please check " + funcname + ".config.json " + Str(k) + " is missing"
    case Unnecessary(k) => "please check " + funcname + ".config.json " + Str(k) + " is uneccessary"
    case WrongType(k) => "please check " + Str(k) + " in " + funcname + ".config.json"
  }

  /** The first of `keys` that `data` lacks (the first loop of the check). */
  function FirstMissing(keys: seq<Val>, data: Maps.Dict): Option<Val>
  {
    if keys == [] then None
    else if Maps.Lookup(data, keys[0]).None? then Some(keys[0])
    else FirstMissing(keys[1..], data)
  }

  /**
   * The second loop of the check, over the entries of `data` in order: a
   * key the template lacks, or a value whose type differs from the
   * template's.
   */
  function FirstMisfit(entries: Maps.Dict, template: Maps.Dict): Verdict
  {
    if entries == [] then Accepted
    else match Maps.Lookup(template, entries[0].0)
      case None => Unnecessary(entries[0].0)
      case Some(w) =>
        if TypeName(entries[0].1) != TypeName(w) then WrongType(entries[0].0)
        else FirstMisfit(entries[1..], template)
  }

  /**
   * The check `submit` and `update` make of the config object `data` they
   * loaded for `funcname`: every template key must be present, then every
   * key of `data` must be a template key whose value has the template's
   * type. Values themselves are not compared.
   */
  function CheckConfig(funcname: string, data: Maps.Dict): Verdict
  {
    var template := Template(funcname);
    match FirstMissing(Maps.KeysOf(template), data)
    case Some(k) => Missing(k)
    case None => FirstMisfit(data, template)
  }

  /** A key's value has the type the template gives it. */
  predicate Fits(entry: (Val, Val), template: Maps.Dict)
  {
    Maps.Lookup(template, entry.0).Some? &&
    TypeName(entry.1) == TypeName(Maps.Lookup(template, entry.0).value)
  }

  lemma {:induction false} FirstMissingSpec(keys: seq<Val>, data: Maps.Dict)
    ensures FirstMissing(keys, data).None? <==>
              forall i :: 0 <= i < |keys| ==> Maps.Lookup(data, keys[i]).Some?
    ensures FirstMissing(keys, data).Some? ==>
              FirstMissing(keys, data).value in keys &&
              Maps.Lookup(data, FirstMissing(keys, data).value).None?
  {
    if keys != [] {
      FirstMissingSpec(keys[1..], data);
      assert forall i :: 1 <= i < |keys| ==> keys[i] == keys[1..][i - 1];
    }
  }

  lemma {:induction false} FirstMisfitSpec(entries: Maps.Dict, template: Maps.Dict)
    ensures FirstMisfit(entries, template) == Accepted <==>
              forall i :: 0 <= i < |entries| ==> Fits(entries[i], template)
    ensures FirstMisfit(entries, template).Unnecessary? ==>
              exists i :: 0 <= i < |entries| && entries[i].0 == FirstMisfit(entries, template).key &&
                          Maps.Lookup(template, entries[i].0).None?
    ensures FirstMisfit(entries, template).WrongType? ==>
              exists i :: 0 <= i < |entries| && entries[i].0 == FirstMisfit(entries, template).key &&
                          !Fits(entries[i], template)
    ensures !FirstMisfit(entries, template).Missing?
  {
    if entries != [] {
      FirstMisfitSpec(entries[1..], template);
      assert forall i :: 1 <= i < |entries| ==> entries[i] == entries[1..][i - 1];
      var v := FirstMisfit(entries[1..], template);
      if v.Unnecessary? || v.WrongType? {
        var i :| 0 <= i < |entries[1..]| && entries[1..][i].0 == v.key &&
                 (Maps.Lookup(template, entries[1..][i].0).None? || !Fits(entries[1..][i], template));
        assert entries[i + 1] == entries[1..][i];
      }
    }
  }

  /**
   * A config is accepted exactly when every template key is present and
   * every key it has is a template key whose value has the template's type.
   */
  lemma CheckConfigAccepts(funcname: string, data: Maps.Dict)
    ensures var keys := Maps.KeysOf(Template(funcname));
            CheckConfig(funcname, data) == Accepted <==>
              (forall i :: 0 <= i < |keys| ==> Maps.Lookup(data, keys[i]).Some?) &&
              (forall i :: 0 <= i < |data| ==> Fits(data[i], Template(funcname)))
  {
    FirstMissingSpec(Maps.KeysOf(Template(funcname)), data);
    FirstMisfitSpec(data, Template(funcname));
  }

  /** Each rejection names a key that really is at fault. */
  lemma CheckConfigBlames(funcname: string, data: Maps.Dict)
    ensures var v := CheckConfig(funcname, data);
            (v.Missing? ==> v.key in Maps.KeysOf(Template(funcname)) && Maps.Lookup(data, v.key).None?) &&
            (v.Unnecessary? ==> Maps.Lookup(Template(funcname), v.key).None? &&
                                exists i :: 0 <= i < |data| && data[i].0 == v.key) &&
            (v.WrongType? ==> exists i :: 0 <= i < |data| && data[i].0 == v.key && !Fits(data[i], Template(funcname)))
  {
    FirstMissingSpec(Maps.KeysOf(Template(funcname)), data);
    FirstMisfitSpec(data, Template(funcname));
  }

  /** The six template keys are distinct. */
  lemma TemplateDistinct(funcname: string)
    ensures Maps.DistinctKeys(Template(funcname))
  {
  }

  /** The config `init` writes passes the check of `submit` and `update`. */
  lemma InitConfigAccepted(funcname: string)
    ensures CheckConfig(funcname, Template(funcname)) == Accepted
  {
    ValuesNotCompared(funcname, funcname);
  }

  /**
   * Only types are compared: the config written for one name passes the
   * check made for any other name.
   */
  lemma ValuesNotCompared(funcname: string, other: string)
    ensures CheckConfig(funcname, Template(other)) == Accepted
  {
    var t, u := Template(funcname), Template(other);
    TemplateDistinct(funcname);
    TemplateDistinct(other);
    forall i | 0 <= i < |u| ensures Fits(u[i], t) {
      Maps.LookupAt(t, i);
    }
    forall i | 0 <= i < |t| ensures Maps.Lookup(u, t[i].0).Some? {
      Maps.LookupAt(u, i);
    }
    CheckConfigAccepts(funcname, u);
  }

  const OptionOutOfRange := ARgorithmError(["opt out of range"])

  /**
   * The option check of `render_menu` over the ARgorithm IDs the server
   * listed, in the order they were numbered from 1: the option names an
   * entry, or the option is out of range.
   */
  function RenderMenu(ids: seq<string>, option: int): (r: Result<string>)
    ensures r.Err? ==> r.error == OptionOutOfRange
  {
    if 0 < option <= |ids| then Ok(ids[option - 1]) else Err(OptionOutOfRange)
  }

  /**
   * The entry shown with number `n` (counting from 1) is the one chosen by
   * typing `n`, and no other number chooses anything.
   */
  lemma RenderMenuChoosesShown(ids: seq<string>, option: int)
    ensures RenderMenu(ids, option).Ok? <==> 1 <= option <= |ids|
    ensures RenderMenu(ids, option).Ok? ==> RenderMenu(ids, option).value in ids
    ensures forall i :: 0 <= i < |ids| ==> RenderMenu(ids, i + 1) == Ok(ids[i])
  {
  }
}
