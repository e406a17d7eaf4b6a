/** The part of path-to-regexp's `compile` that reverse routing relies on: each
    `:name` parameter of a URL template is replaced by the value given for `name`.
    A template naming a parameter that has no value, or a `:` with no name after
    it, makes the library throw. */
module PathTemplate {

  datatype Compiled = Path(path: string) | ParamError(name: string)

  /** Characters that may make up a parameter name. */
  predicate IsNameChar(c: char) {
    'a' <= c <= 'z' || 'A' <= c <= 'Z' || '0' <= c <= '9' || c == '_'
  }

  /** The length of the longest prefix of s made of name characters. */
  function NameLength(s: string): (n: nat)
    ensures n <= |s|
    ensures forall i :: 0 <= i < n ==> IsNameChar(s[i])
    ensures n < |s| ==> !IsNameChar(s[n])
  {
    if s == [] || !IsNameChar(s[0]) then 0 else 1 + NameLength(s[1..])
  }

  /** `compile(template)(params)`, without percent-encoding of the values. */
  function Compile(template: string, params: map<string, string>): (r: Compiled)
    ensures r.ParamError? && r.name != "" ==> r.name !in params
    decreases |template|
  {
    if template == [] then Path("")
    else if template[0] == ':' then
      var n := NameLength(template[1..]);
      var name := template[1..1 + n];
      if n == 0 || name !in params then ParamError(name)
      else
        match Compile(template[1 + n..], params)
        case Path(rest) => Path(params[name] + rest)
        case failure => failure
    else
      match Compile(template[1..], params)
      case Path(rest) => Path([template[0]] + rest)
      case failure => failure
  }

  /** A template without parameters compiles to itself, whatever the parameters. */
  lemma {:induction false} CompileLiteral(template: string, params: map<string, string>)
    requires ':' !in template
    ensures Compile(template, params) == Path(template)
  {
    if template != [] {
      assert template[0] in template;
      assert ':' !in template[1..] by {
        forall i | 0 <= i < |template[1..]| ensures template[1..][i] != ':' {
          assert template[1..][i] == template[i + 1];
        }
      }
      CompileLiteral(template[1..], params);
    }
  }

  /** Literal text in front of a template is copied through, and a failure of the rest is kept. */
  lemma {:induction false} CompilePrefix(prefix: string, rest: string, params: map<string, string>)
    requires ':' !in prefix
    ensures Compile(prefix + rest, params) ==
            match Compile(rest, params)
            case Path(p) => Path(prefix + p)
            case failure => failure
  {
    if prefix == [] {
      assert prefix + rest == rest;
    } else {
      var t := prefix + rest;
      assert t[0] == prefix[0] && prefix[0] in prefix;
      assert t[1..] == prefix[1..] + rest;
      assert ':' !in prefix[1..] by {
        forall i | 0 <= i < |prefix[1..]| ensures prefix[1..][i] != ':' {
          assert prefix[1..][i] == prefix[i + 1];
        }
      }
      CompilePrefix(prefix[1..], rest, params);
      match Compile(rest, params)
      case Path(p) =>
        assert [prefix[0]] + (prefix[1..] + p) == prefix + p;
      case ParamError(_) =>
    }
  }

  /** A template that starts with a parameter: the value comes first, or the name is reported missing. */
  lemma {:induction false} ParamHead(name: string, suffix: string, params: map<string, string>)
    requires |name| > 0 && forall i :: 0 <= i < |name| ==> IsNameChar(name[i])
    requires suffix == [] || !IsNameChar(suffix[0])
    ensures Compile(":" + name + suffix, params) ==
            if name !in params then ParamError(name)
            else match Compile(suffix, params)
                 case Path(p) => Path(params[name] + p)
                 case failure => failure
  {
    var t := ":" + name + suffix;
    assert t[1..] == name + suffix;
    NameLengthOf(name, suffix);
    assert t[1..1 + |name|] == name;
    assert t[1 + |name|..] == suffix;
  }

  /** A template that starts with a parameter followed by literal text. */
  lemma {:induction false} CompileTail(name: string, suffix: string, params: map<string, string>)
    requires ':' !in suffix
    requires |name| > 0 && forall i :: 0 <= i < |name| ==> IsNameChar(name[i])
    requires suffix == [] || !IsNameChar(suffix[0])
    requires name in params
    ensures Compile(":" + name + suffix, params) == Path(params[name] + suffix)
  {
    CompileLiteral(suffix, params);
    ParamHead(name, suffix, params);
  }

  /** A parameter is replaced by its value and the literal text around it is kept:
      compiling `prefix + ":" + name + suffix` gives `prefix + params[name] + suffix`. */
  lemma {:induction false} CompileSubstitutes(prefix: string, name: string, suffix: string, params: map<string, string>)
    requires ':' !in prefix && ':' !in suffix
    requires |name| > 0 && forall i :: 0 <= i < |name| ==> IsNameChar(name[i])
    requires suffix == [] || !IsNameChar(suffix[0])
    requires name in params
    ensures Compile(prefix + ":" + name + suffix, params) == Path(prefix + params[name] + suffix)
  {
    var tail := ":" + name + suffix;
    var value := params[name];
    CompileTail(name, suffix, params);
    CompilePrefix(prefix, tail, params);
    assert prefix + ":" + name + suffix == prefix + tail;
    assert prefix + (value + suffix) == prefix + value + suffix;
  }

  lemma {:induction false} NameLengthOf(name: string, suffix: string)
    requires forall i :: 0 <= i < |name| ==> IsNameChar(name[i])
    requires suffix == [] || !IsNameChar(suffix[0])
    ensures NameLength(name + suffix) == |name|
  {
    if name != [] {
      assert (name + suffix)[1..] == name[1..] + suffix;
      NameLengthOf(name[1..], suffix);
    } else {
      assert name + suffix == suffix;
    }
  }

  /** A template whose parameter has no value cannot be compiled. */
  lemma {:induction false} CompileMissing(prefix: string, name: string, suffix: string, params: map<string, string>)
    requires ':' !in prefix
    requires |name| > 0 && forall i :: 0 <= i < |name| ==> IsNameChar(name[i])
    requires suffix == [] || !IsNameChar(suffix[0])
    requires name !in params
    ensures Compile(prefix + ":" + name + suffix, params) == ParamError(name)
  {
    var tail := ":" + name + suffix;
    ParamHead(name, suffix, params);
    CompilePrefix(prefix, tail, params);
    assert prefix + ":" + name + suffix == prefix + tail;
  }

  /** The reverse route of the binder's own test: "/get/:id" with id 1 is "/get/1". */
  lemma CompileExample()
    ensures Compile("/get/:id", map["id" := "1"]) == Path("/get/1")
  {
    var params := map["id" := "1"];
    assert "/get/:id" == "/get/" + ":" + "id" + "";
    CompileSubstitutes("/get/", "id", "", params);
    assert "/get/" + params["id"] + "" == "/get/1";
  }
}
