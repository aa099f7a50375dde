/** Column-label normalisation done by `load_and_clean` (main.py:12-22):
    every label is lower-cased, then four synonym renames are applied in a
    fixed order. A rename replaces every column carrying the old label. */
module Labels {

  predicate IsUpper(c: char) {
    'A' <= c <= 'Z'
  }

  /** True when no character of `s` is an upper-case letter. */
  predicate IsLowerCase(s: string) {
    forall i :: 0 <= i < |s| ==> !IsUpper(s[i])
  }

  function LowerChar(c: char): char {
    if IsUpper(c) then (c as int - 'A' as int + 'a' as int) as char else c
  }

  /** `str.lower()` on one label, restricted to the ASCII letters. */
  function Lower(s: string): (r: string)
    ensures |r| == |s| && IsLowerCase(r)
    ensures forall i :: 0 <= i < |s| && !IsUpper(s[i]) ==> r[i] == s[i]
    ensures forall i :: 0 <= i < |s| && IsUpper(s[i]) ==>
      'a' <= r[i] <= 'z' && r[i] as int - 'a' as int == s[i] as int - 'A' as int
    ensures IsLowerCase(s) ==> r == s
  {
    seq(|s|, i requires 0 <= i < |s| => LowerChar(s[i]))
  }

  /** The labels main.py treats as synonyms of a canonical column. */
  predicate IsSynonym(name: string) {
    name == "headlines" || name == "text" || name == "published" || name == "time"
  }

  /** Reference meaning of the four renames, one label at a time. */
  function Canonical(name: string): string {
    if name == "headlines" || name == "text" then "headline"
    else if name == "published" || name == "time" then "date"
    else name
  }

  /** `d.rename(columns={from: to})` guarded by `if from in d.columns`:
      every column called `from` is renamed, the others are left alone. */
  function RenameIfPresent(labels: seq<string>, from: string, to: string): (r: seq<string>)
    ensures |r| == |labels|
    ensures forall i :: 0 <= i < |r| ==> (labels[i] == from ==> r[i] == to) && (labels[i] != from ==> r[i] == labels[i])
  {
    if from in labels then
      seq(|labels|, i requires 0 <= i < |labels| => if labels[i] == from then to else labels[i])
    else
      labels
  }

  function LowerAll(labels: seq<string>): (r: seq<string>)
    ensures |r| == |labels|
    ensures forall i :: 0 <= i < |r| ==> r[i] == Lower(labels[i])
  {
    seq(|labels|, i requires 0 <= i < |labels| => Lower(labels[i]))
  }

  /** The label normalisation of main.py:12-22, step by step as written. */
  function NormalizeLabels(labels: seq<string>): (r: seq<string>)
    ensures |r| == |labels|
    ensures forall i :: 0 <= i < |r| ==> r[i] == Canonical(Lower(labels[i]))
  {
    var lowered := LowerAll(labels);
    var step1 := RenameIfPresent(lowered, "headlines", "headline");
    var step2 := RenameIfPresent(step1, "text", "headline");
    var step3 := RenameIfPresent(step2, "published", "date");
    RenameIfPresent(step3, "time", "date")
  }

  lemma CanonicalIsLowerCase(name: string)
    requires IsLowerCase(name)
    ensures IsLowerCase(Canonical(name)) && !IsSynonym(Canonical(name))
  {
    assert IsLowerCase("headline");
    assert IsLowerCase("date");
  }

  /** Every normalised label is lower-case and no synonym survives. */
  lemma NormalizedLabelsAreCanonical(labels: seq<string>)
    ensures forall i :: 0 <= i < |labels| ==>
      IsLowerCase(NormalizeLabels(labels)[i]) && !IsSynonym(NormalizeLabels(labels)[i])
  {
    forall i | 0 <= i < |labels|
      ensures IsLowerCase(NormalizeLabels(labels)[i]) && !IsSynonym(NormalizeLabels(labels)[i])
    {
      CanonicalIsLowerCase(Lower(labels[i]));
    }
  }

  /** Labels that are already lower-case and are not synonyms pass through. */
  lemma NormalizeKeepsOtherLabels(labels: seq<string>, i: nat)
    requires i < |labels| && IsLowerCase(labels[i]) && !IsSynonym(labels[i])
    ensures NormalizeLabels(labels)[i] == labels[i]
  {
  }

  /** Synonyms, in any letter case, become their canonical label. */
  lemma NormalizeRenamesSynonyms(labels: seq<string>, i: nat)
    requires i < |labels|
    ensures Lower(labels[i]) in {"headlines", "text"} ==> NormalizeLabels(labels)[i] == "headline"
    ensures Lower(labels[i]) in {"published", "time"} ==> NormalizeLabels(labels)[i] == "date"
  {
  }

  /** Normalising an already normalised label list changes nothing. */
  lemma NormalizeIdempotent(labels: seq<string>)
    ensures NormalizeLabels(NormalizeLabels(labels)) == NormalizeLabels(labels)
  {
    var once := NormalizeLabels(labels);
    NormalizedLabelsAreCanonical(labels);
    forall i | 0 <= i < |once|
      ensures NormalizeLabels(once)[i] == once[i]
    {
      NormalizeKeepsOtherLabels(once, i);
    }
  }
}
