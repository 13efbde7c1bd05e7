/** The tree flattener `elem2dict`: a labelled tree becomes a nested mapping
    from child tags (namespace prefix removed) to the child's text, or to the
    child's own flattening when it has no non-whitespace text; a tag that
    repeats among siblings collects its values in a list. */
module TreeFlattener {
  import opened Values

  /** A parsed element: its tag (possibly `{namespace}local`), its text, its children. */
  datatype Elem = Elem(tag: string, text: Option<string>, children: seq<Elem>)

  /** The values `elem2dict` builds: a string, a dict, or a list of repeated values. */
  datatype Feature = Text(text: string) | Dict(entries: map<string, Feature>) | List(items: seq<Feature>)

  /** The characters Python's `str.strip()` removes. */
  predicate IsSpace(c: char)
  {
    c in {' ', '\t', '\n', '\r', '\U{000B}', '\U{000C}', '\U{001C}', '\U{001D}', '\U{001E}', '\U{001F}',
          '\U{0085}', '\U{00A0}', '\U{1680}', '\U{2028}', '\U{2029}', '\U{202F}', '\U{205F}', '\U{3000}'}
    || ('\U{2000}' <= c <= '\U{200A}')
  }

  /** `element.text and element.text.strip()`: the text exists and is not all whitespace. */
  predicate HasContent(text: Option<string>)
    ensures HasContent(text) ==> text.Some? && |text.value| > 0
    ensures text.Some? && (forall i :: 0 <= i < |text.value| ==> IsSpace(text.value[i])) ==> !HasContent(text)
  {
    text.Some? && exists i :: 0 <= i < |text.value| && !IsSpace(text.value[i])
  }

  /** The position of the first occurrence of c in s. */
  function IndexOf(s: string, c: char): (i: nat)
    requires c in s
    ensures i < |s| && s[i] == c && c !in s[..i]
  {
    if s[0] == c then 0 else 1 + IndexOf(s[1..], c)
  }

  /** The longest prefix of s that holds no '}'. */
  function UntilBrace(s: string): (p: string)
    ensures p <= s && '}' !in p
    ensures |p| < |s| ==> s[|p|] == '}'
  {
    if |s| == 0 || s[0] == '}' then [] else [s[0]] + UntilBrace(s[1..])
  }

  /** `tag.split('}')[1] if '}' in tag else tag`. */
  function Key(tag: string): (k: string)
    ensures '}' !in k
    ensures '}' !in tag ==> k == tag
    ensures '}' in tag ==> |k| < |tag|
  {
    if '}' in tag then UntilBrace(tag[IndexOf(tag, '}') + 1..]) else tag
  }

  /** A namespace-qualified tag `{ns}local` gives the key `local`; a plain tag is its own key. */
  lemma {:induction false} KeyStripsNamespace(ns: string, local: string)
    requires '}' !in ns && '}' !in local
    ensures Key("{" + ns + "}" + local) == local
    ensures Key(local) == local
  {
    var tag := "{" + ns + "}" + local;
    assert tag[|ns| + 1] == '}';
    assert tag[..|ns| + 1] == "{" + ns;
    assert '}' in tag;
    assert IndexOf(tag, '}') == |ns| + 1;
    assert tag[|ns| + 2..] == local;
    UntilBraceWhole(local);
  }

  lemma {:induction false} UntilBraceWhole(s: string)
    requires '}' !in s
    ensures UntilBrace(s) == s
  {
    if |s| > 0 {
      UntilBraceWhole(s[1..]);
    }
  }

  /** The value one child contributes: its text, or its own flattening. */
  function ChildValue(child: Elem): (r: Result<Feature>)
    ensures r.Success? ==> !r.value.List?
    ensures r.Failure? ==> r.error == AttributeError
    decreases child, 2, 0
  {
    if HasContent(child.text) then Success(Text(child.text.value))
    else match Flatten(child)
      case Failure(e) => Failure(e)
      case Success(d) => Success(Dict(d))
  }

  /** The (key, value) pairs of the first k children, in document order. */
  function Entries(node: Elem, k: nat): (r: Result<seq<(string, Feature)>>)
    requires k <= |node.children|
    ensures r.Success? ==> |r.value| == k
    ensures r.Success? ==> forall i :: 0 <= i < k ==>
      (ChildValue(node.children[i]).Success? &&
       r.value[i] == (Key(node.children[i].tag), ChildValue(node.children[i]).value))
    ensures r.Failure? <==> exists i :: 0 <= i < k && ChildValue(node.children[i]).Failure?
    ensures r.Failure? ==> r.error == AttributeError
    decreases node, 0, k
  {
    if k == 0 then Success([])
    else match Entries(node, k - 1)
      case Failure(e) => Failure(e)
      case Success(es) =>
        var child := node.children[k - 1];
        match ChildValue(child)
        case Failure(e) => Failure(e)
        case Success(v) => Success(es + [(Key(child.tag), v)])
  }

  /** Lines 24-32 for one child: a new key stores the value; a key holding a list
      gets the value appended; a key holding a dict becomes `[copy, value]`; a
      key holding a string fails, since `str` has no `copy()`. */
  function Insert(result: map<string, Feature>, key: string, value: Feature): (r: Result<map<string, Feature>>)
    ensures r.Failure? <==> key in result && result[key].Text?
    ensures r.Failure? ==> r.error == AttributeError
    ensures key !in result ==> r == Success(result[key := value])
    ensures r.Success? ==>
      && r.value.Keys == result.Keys + {key}
      && (forall other :: other in result && other != key ==> r.value[other] == result[other])
      && (key in result ==> r.value[key].List?)
  {
    if key !in result then Success(result[key := value])
    else match result[key]
      case List(items) => Success(result[key := List(items + [value])])
      case Dict(d) => Success(result[key := List([Dict(d), value])])
      case Text(_) => Failure(AttributeError)
  }

  /** The dict built from (key, value) pairs inserted in order. */
  function Collect(es: seq<(string, Feature)>): (r: Result<map<string, Feature>>)
    ensures r.Failure? ==> r.error == AttributeError
  {
    if |es| == 0 then Success(map[])
    else match Collect(es[..|es| - 1])
      case Failure(e) => Failure(e)
      case Success(m) => Insert(m, es[|es| - 1].0, es[|es| - 1].1)
  }

  /** The result of `elem2dict(node)`. */
  function Flatten(node: Elem): (r: Result<map<string, Feature>>)
    ensures r.Failure? ==> r.error == AttributeError
    decreases node, 1, 0
  {
    match Entries(node, |node.children|)
    case Failure(e) => Failure(e)
    case Success(es) => Collect(es)
  }

  /** The values stored under key, in document order. */
  function Occurrences(es: seq<(string, Feature)>, key: string): (r: seq<Feature>)
    ensures |r| <= |es|
    ensures NoLists(es) ==> forall j :: 0 <= j < |r| ==> !r[j].List?
  {
    if |es| == 0 then []
    else Occurrences(es[..|es| - 1], key) + (if es[|es| - 1].0 == key then [es[|es| - 1].1] else [])
  }

  /** What a key's occurrences collapse to: one value alone, several as a list. */
  function Grouped(occ: seq<Feature>): Feature
    requires |occ| >= 1
  {
    if |occ| == 1 then occ[0] else List(occ)
  }

  predicate NoLists(es: seq<(string, Feature)>)
  {
    forall i :: 0 <= i < |es| ==> !es[i].1.List?
  }

  /** Appending one pair adds its value to that key's occurrences only. */
  lemma OccurrencesSnoc(es: seq<(string, Feature)>, k: string, v: Feature, key: string)
    ensures Occurrences(es + [(k, v)], key) == Occurrences(es, key) + (if k == key then [v] else [])
  {
    assert (es + [(k, v)])[..|es|] == es;
  }

  /** Collecting one more pair inserts it into the dict collected so far. */
  lemma CollectSnoc(es: seq<(string, Feature)>, k: string, v: Feature)
    ensures Collect(es + [(k, v)]) == match Collect(es) { case Failure(e) => Failure(e) case Success(m) => Insert(m, k, v) }
  {
    assert (es + [(k, v)])[..|es|] == es;
  }

  /** On success a key is present exactly when it occurs, and maps to its grouped occurrences. */
  lemma {:induction false} CollectGroupsAt(es: seq<(string, Feature)>, key: string)
    requires NoLists(es)
    requires Collect(es).Success?
    ensures key in Collect(es).value <==> |Occurrences(es, key)| >= 1
    ensures key in Collect(es).value ==> Collect(es).value[key] == Grouped(Occurrences(es, key))
  {
    if |es| > 0 {
      var p := es[..|es| - 1];
      var (k, v) := es[|es| - 1];
      assert es == p + [(k, v)];
      assert NoLists(p) by { assert forall i :: 0 <= i < |p| ==> p[i] == es[i]; }
      CollectGroupsAt(p, key);
      OccurrencesSnoc(p, k, v, key);
      CollectSnoc(p, k, v);
    }
  }

  lemma CollectGroups(es: seq<(string, Feature)>)
    requires NoLists(es)
    requires Collect(es).Success?
    ensures forall key :: key in Collect(es).value <==> |Occurrences(es, key)| >= 1
    ensures forall key :: key in Collect(es).value ==> Collect(es).value[key] == Grouped(Occurrences(es, key))
  {
    forall key ensures (key in Collect(es).value <==> |Occurrences(es, key)| >= 1) &&
      (key in Collect(es).value ==> Collect(es).value[key] == Grouped(Occurrences(es, key)))
    {
      CollectGroupsAt(es, key);
    }
  }

  /** A key that repeats with a string as its first value makes collecting fail. */
  lemma {:induction false} RepeatedTextFails(es: seq<(string, Feature)>, key: string)
    requires NoLists(es)
    requires |Occurrences(es, key)| >= 2 && Occurrences(es, key)[0].Text?
    ensures Collect(es).Failure?
  {
    var p := es[..|es| - 1];
    var (k, v) := es[|es| - 1];
    assert es == p + [(k, v)];
    assert NoLists(p) by { assert forall i :: 0 <= i < |p| ==> p[i] == es[i]; }
    OccurrencesSnoc(p, k, v, key);
    CollectSnoc(p, k, v);
    if Collect(p).Success? {
      if |Occurrences(p, key)| >= 2 {
        RepeatedTextFails(p, key);
      } else {
        CollectGroupsAt(p, key);
      }
    }
  }

  /** When collecting fails, some key repeats with a string as its first value. */
  lemma {:induction false} FailingKey(es: seq<(string, Feature)>) returns (key: string)
    requires NoLists(es)
    requires Collect(es).Failure?
    ensures |Occurrences(es, key)| >= 2 && Occurrences(es, key)[0].Text?
  {
    var p := es[..|es| - 1];
    var (k, v) := es[|es| - 1];
    assert es == p + [(k, v)];
    assert NoLists(p) by { assert forall i :: 0 <= i < |p| ==> p[i] == es[i]; }
    CollectSnoc(p, k, v);
    if Collect(p).Failure? {
      key := FailingKey(p);
    } else {
      key := k;
      CollectGroupsAt(p, k);
    }
    OccurrencesSnoc(p, k, v, key);
  }

  /** Collecting fails exactly when some key repeats and its first value is a string. */
  lemma CollectFails(es: seq<(string, Feature)>)
    requires NoLists(es)
    ensures Collect(es).Failure? <==> exists key :: |Occurrences(es, key)| >= 2 && Occurrences(es, key)[0].Text?
  {
    if Collect(es).Failure? {
      var key := FailingKey(es);
    } else {
      forall key | |Occurrences(es, key)| >= 2 ensures !Occurrences(es, key)[0].Text? {
        if Occurrences(es, key)[0].Text? {
          RepeatedTextFails(es, key);
        }
      }
    }
  }

  /** Once inserting a pair has failed, every longer list of pairs fails too. */
  lemma {:induction false} CollectFailureSticks(es: seq<(string, Feature)>, j: nat)
    requires j <= |es| && Collect(es[..j]).Failure?
    ensures Collect(es).Failure? && Collect(es).error == AttributeError
  {
    if j < |es| {
      assert es[..|es| - 1][..j] == es[..j];
      CollectFailureSticks(es[..|es| - 1], j);
    } else {
      assert es[..j] == es;
    }
  }

  /** elem2dict on a whole node: when every child's value exists, the result
      holds exactly the children's keys, each mapped to its value alone or, when
      the tag repeats, to the list of its values in document order; it fails
      exactly when a repeated tag's first value is text. */
  lemma FlattenGroupsSiblings(node: Elem)
    requires Entries(node, |node.children|).Success?
    ensures var es := Entries(node, |node.children|).value;
      (Flatten(node).Failure? <==> exists key :: |Occurrences(es, key)| >= 2 && Occurrences(es, key)[0].Text?) &&
      (Flatten(node).Success? ==>
        (forall i :: 0 <= i < |node.children| ==> Key(node.children[i].tag) in Flatten(node).value) &&
        (forall key :: key in Flatten(node).value ==> |Occurrences(es, key)| >= 1 && Flatten(node).value[key] == Grouped(Occurrences(es, key))))
  {
    var es := Entries(node, |node.children|).value;
    assert NoLists(es);
    CollectFails(es);
    if Collect(es).Success? {
      CollectGroups(es);
      forall i | 0 <= i < |node.children| ensures Key(node.children[i].tag) in Collect(es).value {
        OccursAt(es, i);
      }
    }
  }

  lemma {:induction false} OccursAt(es: seq<(string, Feature)>, i: nat)
    requires i < |es|
    ensures |Occurrences(es, es[i].0)| >= 1
  {
    if i < |es| - 1 {
      OccursAt(es[..|es| - 1], i);
    }
  }

  /** Two children `<Lap>a</Lap><Lap>b</Lap>` make elem2dict raise: the first
      "a" is stored as a string and `"a".copy()` does not exist. */
  lemma RepeatedTextTagFails()
    ensures Flatten(Elem("Activity", None, [Elem("Lap", Some("a"), []), Elem("Lap", Some("b"), [])])) == Failure(AttributeError)
  {
    var node := Elem("Activity", None, [Elem("Lap", Some("a"), []), Elem("Lap", Some("b"), [])]);
    assert HasContent(Some("a")) by { assert !IsSpace("a"[0]); }
    assert HasContent(Some("b")) by { assert !IsSpace("b"[0]); }
    assert Key("Lap") == "Lap";
    assert ChildValue(node.children[0]) == Success(Text("a"));
    assert ChildValue(node.children[1]) == Success(Text("b"));
    var es := Entries(node, 2).value;
    assert es == [("Lap", Text("a")), ("Lap", Text("b"))];
    OccurrencesSnoc([("Lap", Text("a"))], "Lap", Text("b"), "Lap");
    OccurrencesSnoc([], "Lap", Text("a"), "Lap");
    assert [("Lap", Text("a"))] == [] + [("Lap", Text("a"))];
    RepeatedTextFails(es, "Lap");
  }

  /** `elem2dict`: walks the children in order, flattening text-less children
      recursively and collecting repeated tags into lists. */
  method Elem2Dict(node: Elem) returns (r: Result<map<string, Feature>>)
    ensures r == Flatten(node)
    decreases node, 1
  {
    var result: map<string, Feature> := map[];
    var i := 0;
    ghost var pairs: seq<(string, Feature)> := [];
    while i < |node.children|
      invariant i <= |node.children|
      invariant Entries(node, i) == Success(pairs)
      invariant Collect(pairs) == Success(result)
    {
      var element := node.children[i];
      var key := Key(element.tag);
      var child := ElementValue(element);
      if child.Failure? {
        ChildFailureFails(node, i);
        return Failure(AttributeError);
      }
      var value := child.value;
      CollectStep(node, i, value, result);
      pairs := pairs + [(key, value)];
      if key in result {
        match result[key]
        case List(items) =>
          result := result[key := List(items + [value])];
        case Dict(d) =>
          result := result[key := List([Dict(d), value])];
        case Text(_) =>
          InsertFailureFails(node, i + 1);
          return Failure(AttributeError);
      } else {
        result := result[key := value];
      }
      i := i + 1;
    }
    r := Success(result);
  }

  /** The value of one child in `elem2dict`: its text when that has
      non-whitespace content, otherwise its own flattening. */
  method ElementValue(element: Elem) returns (r: Result<Feature>)
    ensures r == ChildValue(element)
    decreases element, 2
  {
    if HasContent(element.text) {
      return Success(Text(element.text.value));
    }
    var sub := Elem2Dict(element);
    if sub.Failure? {
      return Failure(sub.error);
    }
    r := Success(Dict(sub.value));
  }

  /** One more child inserts its pair into the dict collected so far. */
  lemma CollectStep(node: Elem, i: nat, value: Feature, result: map<string, Feature>)
    requires i < |node.children| && Entries(node, i).Success?
    requires ChildValue(node.children[i]) == Success(value)
    requires Collect(Entries(node, i).value) == Success(result)
    ensures Entries(node, i + 1) == Success(Entries(node, i).value + [(Key(node.children[i].tag), value)])
    ensures Collect(Entries(node, i).value + [(Key(node.children[i].tag), value)]) == Insert(result, Key(node.children[i].tag), value)
  {
    EntriesStep(node, i, value);
    CollectSnoc(Entries(node, i).value, Key(node.children[i].tag), value);
  }

  /** A child whose flattening fails makes the whole node fail. */
  lemma ChildFailureFails(node: Elem, i: nat)
    requires i < |node.children| && ChildValue(node.children[i]).Failure?
    ensures Flatten(node) == Failure(AttributeError)
  {
    assert Entries(node, |node.children|).Failure?;
  }

  /** An insertion that fails among the first j children makes the whole node fail. */
  lemma InsertFailureFails(node: Elem, j: nat)
    requires j <= |node.children| && Entries(node, j).Success? && Collect(Entries(node, j).value).Failure?
    ensures Flatten(node) == Failure(AttributeError)
  {
    if Entries(node, |node.children|).Success? {
      EntriesPrefix(node, j, |node.children|);
      CollectFailureSticks(Entries(node, |node.children|).value, j);
    }
  }

  /** The pairs of one more child extend the pairs collected so far. */
  lemma EntriesStep(node: Elem, i: nat, value: Feature)
    requires i < |node.children| && Entries(node, i).Success?
    requires ChildValue(node.children[i]) == Success(value)
    ensures Entries(node, i + 1) == Success(Entries(node, i).value + [(Key(node.children[i].tag), value)])
  {
  }

  /** The pairs of the first j children are a prefix of those of the first k. */
  lemma EntriesPrefix(node: Elem, j: nat, k: nat)
    requires j <= k <= |node.children| && Entries(node, k).Success?
    ensures Entries(node, j).Success? && Entries(node, k).value[..j] == Entries(node, j).value
  {
  }
}
