/**
 * Message lookup and placeholder filling (src/lib/i18n/useI18n.ts). The
 * message tables are not part of this model, so they are a parameter:
 * locale to key to text. Variable values are taken as already converted to
 * text.
 */
module I18n {
  import opened Optional
  import opened Strings

  /** `\w`: an ASCII letter, digit or underscore. */
  predicate IsWordChar(c: char)
  {
    ('a' <= c <= 'z') || ('A' <= c <= 'Z') || ('0' <= c <= '9') || c == '_'
  }

  predicate IsWord(s: string)
  {
    forall i :: 0 <= i < |s| ==> IsWordChar(s[i])
  }

  /** The length of the longest run of word characters at the front of s. */
  function WordRun(s: string): (k: nat)
    ensures k <= |s| && IsWord(s[..k])
    ensures k < |s| ==> !IsWordChar(s[k])
  {
    if s == [] || !IsWordChar(s[0]) then 0
    else
      var k := 1 + WordRun(s[1..]);
      assert forall i :: 1 <= i < k ==> s[..k][i] == s[1..][..k - 1][i - 1];
      k
  }

  /**
   * The names every object inherits from `Object.prototype`. `vars[key]`
   * finds them on any variable object, so none of them is nullish.
   */
  const InheritedNames: set<string> := {
    "constructor", "hasOwnProperty", "isPrototypeOf", "propertyIsEnumerable", "toLocaleString",
    "toString", "valueOf", "__defineGetter__", "__defineSetter__", "__lookupGetter__",
    "__lookupSetter__", "__proto__"
  }

  /**
   * `String(vars[key])` for an inherited name, as V8 prints it: the
   * prototype object itself for `__proto__`, the `Object` function for
   * `constructor`, and a built-in method otherwise.
   */
  function InheritedText(name: string): string
  {
    if name == "__proto__" then "[object Object]"
    else if name == "constructor" then "function Object() { [native code] }"
    else "function " + name + "() { [native code] }"
  }

  /**
   * `String(vars[key] ?? "{key}")`: the variable's own value, else the
   * inherited member, else the placeholder itself.
   */
  function Fill(vars: map<string, string>, name: string): string
  {
    if name in vars then vars[name]
    else if name in InheritedNames then InheritedText(name)
    else "{" + name + "}"
  }

  /**
   * `template.replace(/\{(\w+)\}/g, ...)`: one left-to-right pass; a
   * placeholder is `{`, one or more word characters and `}`, and the text it
   * is replaced by is not scanned again.
   */
  function Replace(s: string, vars: map<string, string>): string
    decreases |s|
  {
    if s == [] then []
    else
      var k := WordRun(s[1..]);
      if s[0] == '{' && k > 0 && 1 + k < |s| && s[1 + k] == '}' then Fill(vars, s[1..1 + k]) + Replace(s[2 + k..], vars)
      else [s[0]] + Replace(s[1..], vars)
  }

  /** `interpolate`: without variables the template comes back as it is. */
  function Interpolate(template: string, vars: Option<map<string, string>>): (r: string)
    ensures vars.None? ==> r == template
  {
    if vars.None? then template else Replace(template, vars.value)
  }

  /**
   * A placeholder is replaced by its variable's value as it stands, by the
   * inherited member's text when the name is one of `Object.prototype`'s, or
   * left as it was otherwise.
   */
  lemma {:induction false} PlaceholderFilled(name: string, rest: string, vars: map<string, string>)
    requires name != [] && IsWord(name)
    ensures Replace("{" + name + "}" + rest, vars) == Fill(vars, name) + Replace(rest, vars)
    ensures name in vars ==> Replace("{" + name + "}" + rest, vars) == vars[name] + Replace(rest, vars)
    ensures name !in vars && name in InheritedNames ==> Replace("{" + name + "}" + rest, vars) == InheritedText(name) + Replace(rest, vars)
    ensures name !in vars && name !in InheritedNames ==> Replace("{" + name + "}" + rest, vars) == "{" + name + "}" + Replace(rest, vars)
  {
    var s := "{" + name + "}" + rest;
    WordRunOf(name, "}" + rest);
    assert s[1..] == name + ("}" + rest);
    assert s[1..1 + |name|] == name;
    assert s[2 + |name|..] == rest;
  }

  /** The word run at the front of a word followed by a non-word character is that word. */
  lemma {:induction false} WordRunOf(name: string, rest: string)
    requires IsWord(name) && rest != [] && !IsWordChar(rest[0])
    ensures WordRun(name + rest) == |name|
    decreases |name|
  {
    if name == [] {
      assert name + rest == rest;
    } else {
      assert (name + rest)[1..] == name[1..] + rest;
      WordRunOf(name[1..], rest);
    }
  }

  /** Text without `{` passes through unchanged, and the rest is filled after it. */
  lemma {:induction false} PlainTextKept(text: string, rest: string, vars: map<string, string>)
    requires forall i :: 0 <= i < |text| ==> text[i] != '{'
    ensures Replace(text + rest, vars) == text + Replace(rest, vars)
    decreases |text|
  {
    if text != [] {
      assert (text + rest)[1..] == text[1..] + rest;
      PlainTextKept(text[1..], rest, vars);
    } else {
      assert text + rest == rest;
    }
  }

  /**
   * With no variable defined, a template that names no inherited member in a
   * placeholder comes back unchanged.
   */
  lemma {:induction false} NoVarsNoChange(s: string)
    requires forall n :: n in InheritedNames ==> !Contains(s, "{" + n + "}")
    ensures Replace(s, map[]) == s
    decreases |s|
  {
    if s != [] {
      var k := WordRun(s[1..]);
      if s[0] == '{' && k > 0 && 1 + k < |s| && s[1 + k] == '}' {
        var name, rest := s[1..1 + k], s[2 + k..];
        assert name == s[1..][..k];
        assert s == "{" + name + "}" + rest;
        StartsWithAppend("{" + name + "}", rest);
        assert Contains(s, "{" + name + "}");
        PlaceholderFilled(name, rest, map[]);
        forall n | n in InheritedNames ensures !Contains(s[2 + k..], "{" + n + "}") {
          if Contains(s[2 + k..], "{" + n + "}") {
            ContainsSuffix(s, 2 + k, "{" + n + "}");
          }
        }
        NoVarsNoChange(rest);
      } else {
        assert forall n :: n in InheritedNames ==> !Contains(s[1..], "{" + n + "}");
        NoVarsNoChange(s[1..]);
        assert s == [s[0]] + s[1..];
      }
    }
  }

  /** What a suffix of s contains, s contains. */
  lemma {:induction false} ContainsSuffix(s: string, j: nat, t: string)
    requires j <= |s| && Contains(s[j..], t)
    ensures Contains(s, t)
    decreases j
  {
    if j > 0 {
      assert s[1..][j - 1..] == s[j..];
      ContainsSuffix(s[1..], j - 1, t);
    }
  }

  /** An empty variable map still fills `{constructor}`: the name is inherited. */
  lemma InheritedFilled()
    ensures Replace("{constructor}", map[]) == "function Object() { [native code] }"
  {
    assert IsWord("constructor");
    PlaceholderFilled("constructor", "", map[]);
    assert "{" + "constructor" + "}" + "" == "{constructor}";
  }

  /** `t(key, vars)`: the current locale's text, else the default locale's, else the key itself. */
  function Translate(messages: map<string, map<string, string>>, defaultLocale: string, locale: string,
                     key: string, vars: Option<map<string, string>>): (r: string)
    requires defaultLocale in messages
  {
    var dict := if locale in messages then messages[locale] else messages[defaultLocale];
    var raw := if key in dict then dict[key] else if key in messages[defaultLocale] then messages[defaultLocale][key] else key;
    Interpolate(raw, vars)
  }

  /** The fallback chain of `t`, case by case. */
  lemma TranslateFallback(messages: map<string, map<string, string>>, defaultLocale: string, locale: string,
                          key: string, vars: Option<map<string, string>>)
    requires defaultLocale in messages
    ensures locale in messages && key in messages[locale]
            ==> Translate(messages, defaultLocale, locale, key, vars) == Interpolate(messages[locale][key], vars)
    ensures (locale !in messages || key !in messages[locale]) && key in messages[defaultLocale]
            ==> Translate(messages, defaultLocale, locale, key, vars) == Interpolate(messages[defaultLocale][key], vars)
    ensures (locale !in messages || key !in messages[locale]) && key !in messages[defaultLocale]
            ==> Translate(messages, defaultLocale, locale, key, vars) == Interpolate(key, vars)
    ensures (locale !in messages || key !in messages[locale]) && key !in messages[defaultLocale]
            ==> Translate(messages, defaultLocale, locale, key, None) == key
  {
  }
}
