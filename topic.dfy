/** YouTubeResource_BF.py: the canonical topic string built from the class,
    subject and chapter the user selects, and its inverse. */
module Topic {
  import opened PyValues

  /** The choices of the two select boxes. */
  const ClassOptions: seq<string> := ["Class 9", "Class 10", "Class 11", "Class 12"]
  const SubjectOptions: seq<string> :=
    ["Science", "Maths", "Sociology", "History", "Geography", "Political Science", "Economics"]

  datatype Selection = Selection(cls: string, subject: string, chapter: string)

  predicate StartsWith(s: string, prefix: string) {
    |prefix| <= |s| && s[..|prefix|] == prefix
  }

  /** `f"NCERT {classes} {subject} Chapter {chapter}"`. */
  function TopicOf(sel: Selection): (t: string)
    ensures StartsWith(t, "NCERT " + sel.cls + " ")
    ensures |t| == 16 + |sel.cls| + |sel.subject| + |sel.chapter|
    ensures t[|t| - |sel.chapter|..] == sel.chapter
  {
    "NCERT " + sel.cls + " " + sel.subject + " Chapter " + sel.chapter
  }

  /** The first option that, followed by `sep`, begins `s`. */
  function Leading(options: seq<string>, s: string, sep: string): (r: Option<string>)
    ensures r.Some? ==> r.value in options && StartsWith(s, r.value + sep)
    ensures r.None? ==> forall o :: o in options ==> !StartsWith(s, o + sep)
  {
    if options == [] then None
    else if StartsWith(s, options[0] + sep) then Some(options[0])
    else Leading(options[1..], s, sep)
  }

  /** Reads a topic string back into the selection that produced it. */
  function ParseTopic(t: string): (r: Option<Selection>)
    ensures r.Some? ==> r.value.cls in ClassOptions && r.value.subject in SubjectOptions
    ensures r.Some? ==> TopicOf(r.value) == t
  {
    if !StartsWith(t, "NCERT ") then None
    else
      var afterNcert := t[6..];
      match Leading(ClassOptions, afterNcert, " ")
      case None => None
      case Some(cls) =>
        var afterClass := afterNcert[|cls| + 1..];
        match Leading(SubjectOptions, afterClass, " Chapter ")
        case None => None
        case Some(subject) =>
          var sel := Selection(cls, subject, afterClass[|subject| + 9..]);
          Rebuild(t, sel);
          Some(sel)
  }

  /** A string that begins with each of the three fixed pieces in turn is the
      topic of the selection they delimit. */
  lemma Rebuild(t: string, sel: Selection)
    requires StartsWith(t, "NCERT ")
    requires StartsWith(t[6..], sel.cls + " ")
    requires StartsWith(t[6..][|sel.cls| + 1..], sel.subject + " Chapter ")
    requires sel.chapter == t[6..][|sel.cls| + 1..][|sel.subject| + 9..]
    ensures TopicOf(sel) == t
  {
    var afterNcert := t[6..];
    var afterClass := afterNcert[|sel.cls| + 1..];
    assert t == "NCERT " + afterNcert by { assert t == t[..6] + t[6..]; }
    assert afterNcert == (sel.cls + " ") + afterClass by {
      assert afterNcert == afterNcert[..|sel.cls| + 1] + afterClass;
    }
    assert afterClass == (sel.subject + " Chapter ") + sel.chapter by {
      assert afterClass == afterClass[..|sel.subject| + 9] + sel.chapter;
    }
    calc {
      TopicOf(sel);
      "NCERT " + sel.cls + " " + sel.subject + " Chapter " + sel.chapter;
      "NCERT " + ((sel.cls + " ") + ((sel.subject + " Chapter ") + sel.chapter));
    }
  }

  /** A prefix that disagrees with `s` at some position does not begin `s`. */
  lemma Mismatch(s: string, prefix: string, j: nat)
    requires j < |prefix| && j < |s| && s[j] != prefix[j]
    ensures !StartsWith(s, prefix)
  {
    if |prefix| <= |s| {
      assert s[..|prefix|][j] == s[j];
    }
  }

  /** `Leading` picks the k-th option when it matches and no earlier one does. */
  lemma {:induction false} LeadingAt(options: seq<string>, s: string, sep: string, k: nat)
    requires k < |options| && StartsWith(s, options[k] + sep)
    requires forall o :: o in options[..k] ==> !StartsWith(s, o + sep)
    ensures Leading(options, s, sep) == Some(options[k])
  {
    if k > 0 {
      assert options[0] in options[..k];
      assert options[1..][k - 1] == options[k];
      forall o | o in options[1..][..k - 1] ensures !StartsWith(s, o + sep) {
        assert options[1..][..k - 1] == options[1..k];
        assert o in options[..k];
      }
      LeadingAt(options[1..], s, sep, k - 1);
    }
  }

  /** No class option followed by a space begins another class option followed by a space. */
  lemma LeadingClass(cls: string, rest: string)
    requires cls in ClassOptions
    ensures Leading(ClassOptions, cls + " " + rest, " ") == Some(cls)
  {
    var sep := " ";
    var s := cls + sep + rest;
    assert s[..|cls + sep|] == cls + sep;
    if cls == "Class 9" {
      LeadingAt(ClassOptions, s, sep, 0);
    } else if cls == "Class 10" {
      assert ClassOptions[..1] == ["Class 9"];
      Mismatch(s, "Class 9" + sep, 6);
      LeadingAt(ClassOptions, s, sep, 1);
    } else if cls == "Class 11" {
      assert ClassOptions[..2] == ["Class 9", "Class 10"];
      Mismatch(s, "Class 9" + sep, 6);
      Mismatch(s, "Class 10" + sep, 7);
      LeadingAt(ClassOptions, s, sep, 2);
    } else {
      assert ClassOptions[..3] == ["Class 9", "Class 10", "Class 11"];
      Mismatch(s, "Class 9" + sep, 6);
      Mismatch(s, "Class 10" + sep, 7);
      Mismatch(s, "Class 11" + sep, 7);
      LeadingAt(ClassOptions, s, sep, 3);
    }
  }

  /** No subject option followed by " Chapter " begins another one. */
  lemma LeadingSubject(subject: string, rest: string)
    requires subject in SubjectOptions
    ensures Leading(SubjectOptions, subject + " Chapter " + rest, " Chapter ") == Some(subject)
  {
    var sep := " Chapter ";
    var s := subject + sep + rest;
    assert s[..|subject + sep|] == subject + sep;
    if subject == "Science" {
      LeadingAt(SubjectOptions, s, sep, 0);
    } else if subject == "Maths" {
      assert SubjectOptions[..1] == ["Science"];
      Mismatch(s, "Science" + sep, 0);
      LeadingAt(SubjectOptions, s, sep, 1);
    } else if subject == "Sociology" {
      assert SubjectOptions[..2] == ["Science", "Maths"];
      Mismatch(s, "Science" + sep, 1);
      Mismatch(s, "Maths" + sep, 0);
      LeadingAt(SubjectOptions, s, sep, 2);
    } else if subject == "History" {
      assert SubjectOptions[..3] == ["Science", "Maths", "Sociology"];
      Mismatch(s, "Science" + sep, 0);
      Mismatch(s, "Maths" + sep, 0);
      Mismatch(s, "Sociology" + sep, 0);
      LeadingAt(SubjectOptions, s, sep, 3);
    } else if subject == "Geography" {
      assert SubjectOptions[..4] == ["Science", "Maths", "Sociology", "History"];
      Mismatch(s, "Science" + sep, 0);
      Mismatch(s, "Maths" + sep, 0);
      Mismatch(s, "Sociology" + sep, 0);
      Mismatch(s, "History" + sep, 0);
      LeadingAt(SubjectOptions, s, sep, 4);
    } else if subject == "Political Science" {
      assert SubjectOptions[..5] == ["Science", "Maths", "Sociology", "History", "Geography"];
      Mismatch(s, "Science" + sep, 0);
      Mismatch(s, "Maths" + sep, 0);
      Mismatch(s, "Sociology" + sep, 0);
      Mismatch(s, "History" + sep, 0);
      Mismatch(s, "Geography" + sep, 0);
      LeadingAt(SubjectOptions, s, sep, 5);
    } else {
      assert SubjectOptions[..6] == ["Science", "Maths", "Sociology", "History", "Geography", "Political Science"];
      Mismatch(s, "Science" + sep, 0);
      Mismatch(s, "Maths" + sep, 0);
      Mismatch(s, "Sociology" + sep, 0);
      Mismatch(s, "History" + sep, 0);
      Mismatch(s, "Geography" + sep, 0);
      Mismatch(s, "Political Science" + sep, 0);
      LeadingAt(SubjectOptions, s, sep, 6);
    }
  }

  /** `ParseTopic` succeeds with the pieces its two `Leading` steps pick. */
  lemma ParseTopicSteps(t: string, sel: Selection)
    requires StartsWith(t, "NCERT ")
    requires Leading(ClassOptions, t[6..], " ") == Some(sel.cls)
    requires Leading(SubjectOptions, t[6..][|sel.cls| + 1..], " Chapter ") == Some(sel.subject)
    requires sel.chapter == t[6..][|sel.cls| + 1..][|sel.subject| + 9..]
    ensures ParseTopic(t) == Some(sel)
  {
  }

  /** Where the three fixed pieces of a topic sit. */
  lemma TopicPieces(sel: Selection)
    ensures StartsWith(TopicOf(sel), "NCERT ")
    ensures TopicOf(sel)[6..] == sel.cls + " " + (sel.subject + " Chapter " + sel.chapter)
    ensures TopicOf(sel)[6..][|sel.cls| + 1..] == sel.subject + " Chapter " + sel.chapter
    ensures TopicOf(sel)[6..][|sel.cls| + 1..][|sel.subject| + 9..] == sel.chapter
  {
    var afterClass := sel.subject + " Chapter " + sel.chapter;
    var afterNcert := sel.cls + " " + afterClass;
    assert TopicOf(sel) == "NCERT " + afterNcert;
    assert afterNcert[|sel.cls| + 1..] == afterClass;
    assert afterClass[|sel.subject| + 9..] == sel.chapter;
  }

  /** Every topic built from the select-box options is read back to exactly
      the selection that built it: the topic string identifies the selection. */
  lemma ParseTopicInverts(sel: Selection)
    requires sel.cls in ClassOptions && sel.subject in SubjectOptions
    ensures ParseTopic(TopicOf(sel)) == Some(sel)
  {
    TopicPieces(sel);
    LeadingClass(sel.cls, sel.subject + " Chapter " + sel.chapter);
    LeadingSubject(sel.subject, sel.chapter);
    ParseTopicSteps(TopicOf(sel), sel);
  }
}
