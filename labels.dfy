/**
 * The text rules of ui_app.py: the component name written into the config
 * (emoji removed, trimmed, lower-cased, spaces to underscores) and the unit
 * shown next to a field (metres for keys that name a length).
 *
 * Lower-casing covers ASCII letters only.
 */
module Labels {
  import opened NumText

  /** s.replace(c, ""): s without any occurrence of c */
  function Without(s: string, c: char): (r: string)
    ensures |r| <= |s|
  {
    if s == [] then [] else (if s[0] == c then [] else [s[0]]) + Without(s[1..], c)
  }

  /** Removing c keeps exactly the characters of s other than c */
  lemma {:induction false} WithoutKeeps(s: string, c: char)
    ensures forall x :: x in Without(s, c) <==> x in s && x != c
  {
    if s != [] {
      WithoutKeeps(s[1..], c);
      assert s == [s[0]] + s[1..];
    }
  }

  predicate IsUpper(c: char) { 'A' <= c <= 'Z' }

  function LowerChar(c: char): char
  {
    if IsUpper(c) then (c as int + 32) as char else c
  }

  /** s.lower() */
  function Lower(s: string): (r: string)
    ensures |r| == |s| && forall i :: 0 <= i < |s| ==> r[i] == LowerChar(s[i])
  {
    if s == [] then [] else [LowerChar(s[0])] + Lower(s[1..])
  }

  /** s.replace(a, b) for single characters */
  function ReplaceChar(s: string, a: char, b: char): (r: string)
    ensures |r| == |s| && forall i :: 0 <= i < |s| ==> r[i] == if s[i] == a then b else s[i]
  {
    if s == [] then [] else [if s[0] == a then b else s[0]] + ReplaceChar(s[1..], a, b)
  }

  const Bolt := '⚡'
  const Tornado := '🌪'
  const Wave := '🌊'

  /** The component name generate_model writes into the config */
  function CleanName(comp: string): string
  {
    ReplaceChar(Lower(Strip(Without(Without(Without(comp, Bolt), Tornado), Wave))), ' ', '_')
  }

  lemma StripKeeps(s: string)
    ensures forall x :: x in Strip(s) ==> x in s
  {
    StripSpec(s);
  }

  /** A clean name holds no emoji of the sidebar, no space and no upper-case ASCII letter, and is no longer than the name */
  lemma CleanNameShape(comp: string)
    ensures var r := CleanName(comp);
      && |r| <= |comp|
      && forall i :: 0 <= i < |r| ==> r[i] != ' ' && !IsUpper(r[i]) && r[i] != Bolt && r[i] != Tornado && r[i] != Wave
  {
    var a := Without(comp, Bolt);
    var b := Without(a, Tornado);
    var c := Without(b, Wave);
    WithoutKeeps(comp, Bolt);
    WithoutKeeps(a, Tornado);
    WithoutKeeps(b, Wave);
    var d := Strip(c);
    StripKeeps(c);
    assert |d| <= |c| by {
      assert |TrimStart(c)| <= |c|;
    }
    var e := Lower(d);
    forall i | 0 <= i < |e|
      ensures e[i] != Bolt && e[i] != Tornado && e[i] != Wave
    {
      assert d[i] in d;
    }
  }

  lemma {:induction false} WithoutAbsent(s: string, c: char)
    requires c !in s
    ensures Without(s, c) == s
  {
    if s != [] {
      WithoutAbsent(s[1..], c);
    }
  }

  /** Removing an emoji that leads the name and occurs nowhere else */
  lemma WithoutLeading(c: char, t: string)
    requires c !in t
    ensures Without([c] + t, c) == t
  {
    var s := [c] + t;
    assert s[1..] == t;
    WithoutAbsent(t, c);
  }

  /** Trimming a name with one leading space and no trailing space */
  lemma StripLeadingSpace(t: string)
    requires t != [] && !IsSpace(t[0]) && !IsSpace(t[|t| - 1])
    ensures Strip([' '] + t) == t
  {
    var s := [' '] + t;
    assert s[1..] == t;
    assert TrimStart(s) == t;
  }

  /** No emoji of the sidebar occurs in s */
  predicate NoEmoji(s: string)
  {
    Bolt !in s && Tornado !in s && Wave !in s
  }

  /** Removing the three emoji from one emoji followed by emoji-free text leaves the text */
  lemma WithoutEmoji(c: char, t: string)
    requires c == Bolt || c == Tornado || c == Wave
    requires NoEmoji(t)
    ensures Without(Without(Without([c] + t, Bolt), Tornado), Wave) == t
  {
    if c == Bolt {
      WithoutLeading(Bolt, t);
      WithoutAbsent(t, Tornado);
      WithoutAbsent(t, Wave);
    } else if c == Tornado {
      WithoutAbsent([c] + t, Bolt);
      WithoutLeading(Tornado, t);
      WithoutAbsent(t, Wave);
    } else {
      WithoutAbsent([c] + t, Bolt);
      WithoutAbsent([c] + t, Tornado);
      WithoutLeading(Wave, t);
    }
  }

  /** A sidebar name: one emoji, a space, then a title with no emoji and no outer space */
  predicate SidebarName(name: string, c: char, title: string)
  {
    && (c == Bolt || c == Tornado || c == Wave)
    && name == [c, ' '] + title
    && NoEmoji(title)
    && title != [] && !IsSpace(title[0]) && !IsSpace(title[|title| - 1])
  }

  /** The clean name of a sidebar name is its title lower-cased with spaces turned into underscores */
  lemma CleanNameOf(name: string, c: char, title: string)
    requires SidebarName(name, c, title)
    ensures CleanName(name) == ReplaceChar(Lower(title), ' ', '_')
  {
    var t := [' '] + title;
    assert name == [c] + t;
    assert NoEmoji(t);
    WithoutEmoji(c, t);
    StripLeadingSpace(title);
  }

  lemma LowerOf(s: string, t: string)
    requires |s| == |t| && forall i :: 0 <= i < |s| ==> LowerChar(s[i]) == t[i]
    ensures Lower(s) == t
  {
  }

  lemma ReplaceCharOf(s: string, a: char, b: char, t: string)
    requires |s| == |t| && forall i :: 0 <= i < |s| ==> t[i] == if s[i] == a then b else s[i]
    ensures ReplaceChar(s, a, b) == t
  {
  }

  lemma GeneratorTitle(name: string, title: string)
    requires name == "⚡ Generator" && title == "Generator"
    ensures SidebarName(name, Bolt, title)
  {
  }

  lemma GeneratorLower(title: string, low: string)
    requires title == "Generator" && low == "generator"
    ensures Lower(title) == low
  {
    LowerOf(title, low);
  }

  lemma TurbineTitle(name: string, title: string)
    requires name == "🌪 Turbine" && title == "Turbine"
    ensures SidebarName(name, Tornado, title)
  {
  }

  lemma TurbineLower(title: string, low: string)
    requires title == "Turbine" && low == "turbine"
    ensures Lower(title) == low
  {
    LowerOf(title, low);
  }

  /** A name with no space is left alone by the space-to-underscore step */
  lemma NoSpaceKept(low: string)
    requires ' ' !in low
    ensures ReplaceChar(low, ' ', '_') == low
  {
  }

  lemma IntakeTitle(name: string, title: string)
    requires name == "🌊 Intake Structure" && title == "Intake Structure"
    ensures SidebarName(name, Wave, title)
  {
  }

  lemma IntakeLower(title: string, low: string)
    requires title == "Intake Structure" && low == "intake structure"
    ensures Lower(title) == low
  {
    LowerOf(title, low);
  }

  lemma IntakeReplace(low: string, clean: string)
    requires low == "intake structure" && clean == "intake_structure"
    ensures ReplaceChar(low, ' ', '_') == clean
  {
    ReplaceCharOf(low, ' ', '_', clean);
  }

  lemma CleanGenerator()
    ensures CleanName("⚡ Generator") == "generator"
  {
    GeneratorTitle("⚡ Generator", "Generator");
    GeneratorLower("Generator", "generator");
    NoSpaceKept("generator");
    CleanNameOf("⚡ Generator", Bolt, "Generator");
  }

  lemma CleanTurbine()
    ensures CleanName("🌪 Turbine") == "turbine"
  {
    TurbineTitle("🌪 Turbine", "Turbine");
    TurbineLower("Turbine", "turbine");
    NoSpaceKept("turbine");
    CleanNameOf("🌪 Turbine", Tornado, "Turbine");
  }

  lemma CleanIntake()
    ensures CleanName("🌊 Intake Structure") == "intake_structure"
  {
    IntakeTitle("🌊 Intake Structure", "Intake Structure");
    IntakeLower("Intake Structure", "intake structure");
    IntakeReplace("intake structure", "intake_structure");
    CleanNameOf("🌊 Intake Structure", Wave, "Intake Structure");
  }

  /** w occurs in s as a substring (Python's w in s) */
  predicate Contains(s: string, w: string)
    decreases |s|
  {
    |w| <= |s| && (s[..|w|] == w || Contains(s[1..], w))
  }

  /** w sits in s at position i */
  predicate OccursAt(s: string, w: string, i: int)
  {
    0 <= i <= |s| - |w| && s[i..i + |w|] == w
  }

  /** Contains finds w exactly when w sits at some position of s */
  lemma {:induction false} ContainsAt(s: string, w: string)
    ensures Contains(s, w) <==> exists i :: OccursAt(s, w, i)
  {
    if |w| <= |s| && s[..|w|] != w {
      ContainsAt(s[1..], w);
      if Contains(s[1..], w) {
        var i :| OccursAt(s[1..], w, i);
        assert s[1..][i..i + |w|] == s[i + 1..i + 1 + |w|];
        assert OccursAt(s, w, i + 1);
      }
      if exists i :: OccursAt(s, w, i) {
        var i :| OccursAt(s, w, i);
        assert i != 0;
        assert s[1..][i - 1..i - 1 + |w|] == s[i..i + |w|];
        assert OccursAt(s[1..], w, i - 1);
      }
    } else if |w| <= |s| {
      assert OccursAt(s, w, 0);
    }
  }

  /** The words whose presence in a key makes its unit metres */
  const UnitWords := ["radius", "height", "depth", "elev", "thick", "width", "length", "diam", "gap"]

  /** Whether any of words occurs in key */
  predicate AnyIn(key: string, words: seq<string>)
  {
    words != [] && (Contains(key, words[0]) || AnyIn(key, words[1..]))
  }

  lemma {:induction false} AnyInSome(key: string, words: seq<string>)
    ensures AnyIn(key, words) <==> exists k :: 0 <= k < |words| && Contains(key, words[k])
  {
    if words != [] {
      AnyInSome(key, words[1..]);
      assert forall k :: 0 < k < |words| ==> words[k] == words[1..][k - 1];
    }
  }

  /** The unit label shown beside a field's entry */
  function Unit(key: string): string
  {
    if AnyIn(key, UnitWords) then "m" else ""
  }

  /** The unit is "m" exactly when one of the nine words occurs somewhere in the key, and empty otherwise */
  lemma UnitRule(key: string)
    ensures Unit(key) == "m" <==> exists k, i :: 0 <= k < |UnitWords| && OccursAt(key, UnitWords[k], i)
    ensures Unit(key) == "" || Unit(key) == "m"
  {
    AnyInSome(key, UnitWords);
    forall k | 0 <= k < |UnitWords|
      ensures Contains(key, UnitWords[k]) <==> exists i :: OccursAt(key, UnitWords[k], i)
    {
      ContainsAt(key, UnitWords[k]);
    }
  }
}
