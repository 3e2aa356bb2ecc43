/** The six feature toggles (features_enabled in the application). The
    dictionary is a record with one boolean per key; its insertion order,
    which Python's dict iteration follows, is FeatureOrder. */
module Features {
  import opened Format

  datatype Feature = Faces | Eyes | Smiles | Blur | Landmarks | Emotion

  /** Key order of the toggle dictionary. */
  const FeatureOrder: seq<Feature> := [Faces, Eyes, Smiles, Blur, Landmarks, Emotion]

  /** Position of a feature in FeatureOrder. */
  function Rank(f: Feature): nat {
    match f
    case Faces => 0
    case Eyes => 1
    case Smiles => 2
    case Blur => 3
    case Landmarks => 4
    case Emotion => 5
  }

  /** The dictionary key of a feature. */
  function Name(f: Feature): string {
    match f
    case Faces => "faces"
    case Eyes => "eyes"
    case Smiles => "smiles"
    case Blur => "blur"
    case Landmarks => "landmarks"
    case Emotion => "emotion"
  }

  lemma FeatureOrderIsRanked()
    ensures |FeatureOrder| == 6
    ensures forall i :: 0 <= i < |FeatureOrder| ==> Rank(FeatureOrder[i]) == i
    ensures forall f: Feature :: f in FeatureOrder
  {
    forall f: Feature
      ensures f in FeatureOrder
    {
      assert FeatureOrder[Rank(f)] == f;
    }
  }

  datatype Toggles = Toggles(faces: bool, eyes: bool, smiles: bool,
                             blur: bool, landmarks: bool, emotion: bool)
  {
    function Get(f: Feature): bool {
      match f
      case Faces => faces
      case Eyes => eyes
      case Smiles => smiles
      case Blur => blur
      case Landmarks => landmarks
      case Emotion => emotion
    }

    /** features_enabled[f] = on: key f takes the new value, every other key
        keeps its own. */
    function With(f: Feature, on: bool): (t: Toggles)
      ensures t.Get(f) == on
      ensures forall g :: g != f ==> t.Get(g) == Get(g)
    {
      match f
      case Faces => this.(faces := on)
      case Eyes => this.(eyes := on)
      case Smiles => this.(smiles := on)
      case Blur => this.(blur := on)
      case Landmarks => this.(landmarks := on)
      case Emotion => this.(emotion := on)
    }
  }

  /** faces, eyes and smiles on; blur, landmarks and emotion off. */
  const DefaultToggles := Toggles(true, true, true, false, false, false)

  /** [k for k in fs if t[k]] */
  function Enabled(t: Toggles, fs: seq<Feature>): seq<Feature>
    decreases |fs|
  {
    if fs == [] then []
    else (if t.Get(fs[0]) then [fs[0]] else []) + Enabled(t, fs[1..])
  }

  /** The enabled keys in dictionary order. */
  function EnabledFeatures(t: Toggles): seq<Feature> {
    Enabled(t, FeatureOrder)
  }

  function Names(fs: seq<Feature>): seq<string> {
    seq(|fs|, i requires 0 <= i < |fs| => Name(fs[i]))
  }

  /** The fourth line of the statistics overlay. */
  function FeaturesSummary(t: Toggles): string {
    "Features: " + Join(", ", Names(EnabledFeatures(t)))
  }

  predicate StrictlyRanked(fs: seq<Feature>) {
    forall i, j :: 0 <= i < j < |fs| ==> Rank(fs[i]) < Rank(fs[j])
  }

  lemma {:induction false} EnabledMembership(t: Toggles, fs: seq<Feature>, f: Feature)
    ensures f in Enabled(t, fs) <==> f in fs && t.Get(f)
    decreases |fs|
  {
    if fs != [] {
      EnabledMembership(t, fs[1..], f);
      assert fs == [fs[0]] + fs[1..];
    }
  }

  lemma {:induction false} EnabledKeepsRankOrder(t: Toggles, fs: seq<Feature>)
    requires StrictlyRanked(fs)
    ensures StrictlyRanked(Enabled(t, fs))
    decreases |fs|
  {
    if fs != [] {
      var rest := Enabled(t, fs[1..]);
      EnabledKeepsRankOrder(t, fs[1..]);
      forall k | 0 <= k < |rest|
        ensures Rank(fs[0]) < Rank(rest[k])
      {
        EnabledMembership(t, fs[1..], rest[k]);
        var m :| 0 <= m < |fs[1..]| && fs[1..][m] == rest[k];
        assert fs[m + 1] == rest[k];
      }
    }
  }

  /** A key is listed in the summary exactly when it is enabled, and the
      listed keys keep the dictionary's order (so none is listed twice). */
  lemma SummaryListsEnabledInOrder(t: Toggles)
    ensures forall f :: f in EnabledFeatures(t) <==> t.Get(f)
    ensures StrictlyRanked(EnabledFeatures(t))
  {
    FeatureOrderIsRanked();
    forall f
      ensures f in EnabledFeatures(t) <==> t.Get(f)
    {
      EnabledMembership(t, FeatureOrder, f);
    }
    EnabledKeepsRankOrder(t, FeatureOrder);
  }

  lemma DefaultEnabled()
    ensures EnabledFeatures(DefaultToggles) == [Faces, Eyes, Smiles]
  {
    var t := DefaultToggles;
    assert Enabled(t, [Emotion]) == [];
    assert Enabled(t, [Landmarks, Emotion]) == [];
    assert Enabled(t, [Blur, Landmarks, Emotion]) == [];
    assert Enabled(t, [Smiles, Blur, Landmarks, Emotion]) == [Smiles];
    assert Enabled(t, [Eyes, Smiles, Blur, Landmarks, Emotion]) == [Eyes, Smiles];
  }

  lemma JoinThree(a: string, b: string, c: string)
    ensures Join(", ", [a, b, c]) == a + ", " + b + ", " + c
  {
    var xs := [a, b, c];
    assert xs[1..] == [b, c] && xs[1..][1..] == [c];
    assert Join(", ", [b, c]) == b + ", " + c;
    assert Join(", ", xs) == a + ", " + (b + ", " + c);
  }

  /** With the start-up toggles the overlay reads
      "Features: faces, eyes, smiles". */
  lemma DefaultSummary()
    ensures FeaturesSummary(DefaultToggles) == "Features: faces, eyes, smiles"
  {
    DefaultEnabled();
    assert Names([Faces, Eyes, Smiles]) == ["faces", "eyes", "smiles"];
    JoinThree("faces", "eyes", "smiles");
  }

  /** Different keys have different names. */
  lemma NameInjective(f: Feature, g: Feature)
    ensures Name(f) == Name(g) ==> f == g
  {
    if f != g {
      assert Name(f)[0] != Name(g)[0] || Name(f)[1] != Name(g)[1];
    }
  }

  /** The summary names each enabled key once: its names are pairwise
      distinct, one per enabled key, in the dictionary's order. */
  lemma SummaryNamesDistinct(t: Toggles)
    ensures var ns := Names(EnabledFeatures(t));
            |ns| == |EnabledFeatures(t)| &&
            (forall i :: 0 <= i < |ns| ==> ns[i] == Name(EnabledFeatures(t)[i]) && t.Get(EnabledFeatures(t)[i])) &&
            (forall i, j :: 0 <= i < j < |ns| ==> ns[i] != ns[j])
  {
    var fs := EnabledFeatures(t);
    SummaryListsEnabledInOrder(t);
    forall i, j | 0 <= i < j < |fs|
      ensures Names(fs)[i] != Names(fs)[j]
    {
      NameInjective(fs[i], fs[j]);
    }
    forall i | 0 <= i < |fs|
      ensures t.Get(fs[i])
    {
      assert fs[i] in fs;
    }
  }

  /** With every toggle off the line is "Features: " and nothing after it. */
  lemma EmptySummary()
    ensures FeaturesSummary(Toggles(false, false, false, false, false, false)) == "Features: "
  {
    var t := Toggles(false, false, false, false, false, false);
    assert forall f :: !t.Get(f);
    EnabledMembership(t, FeatureOrder, Faces);
    SummaryListsEnabledInOrder(t);
    assert EnabledFeatures(t) == [];
  }
}
