/** Domain names as the program compares them: lower case, without the trailing dot. */
module Names {

  /** A domain name as its labels, `www.example.org` as ["www", "example", "org"]. */
  type Name = seq<string>

  function LowerChar(c: char): char {
    if 'A' <= c <= 'Z' then 'a' + (c - 'A') else c
  }

  /** `lower` on ASCII. */
  function Lower(s: string): (t: string)
    ensures |t| == |s| && forall i :: 0 <= i < |s| ==> t[i] == LowerChar(s[i])
  {
    seq(|s|, i requires 0 <= i < |s| => LowerChar(s[i]))
  }

  function LowerAll(name: Name): (lower: Name)
    ensures |lower| == |name| && forall i :: 0 <= i < |name| ==> lower[i] == Lower(name[i])
  {
    seq(|name|, i requires 0 <= i < |name| => Lower(name[i]))
  }

  /** `rstrip(".")`: the empty labels behind the last dot go. */
  function Stripped(name: Name): Name {
    if name != [] && name[|name| - 1] == "" then Stripped(name[..|name| - 1]) else name
  }

  /** `name.lower().rstrip(".")`. */
  function Normal(name: Name): Name {
    Stripped(LowerAll(name))
  }

  predicate IsNormal(name: Name) {
    && (name != [] ==> name[|name| - 1] != "")
    && forall i, j :: 0 <= i < |name| && 0 <= j < |name[i]| ==> !('A' <= name[i][j] <= 'Z')
  }

  lemma {:induction false} StrippedIsPrefix(name: Name)
    ensures |Stripped(name)| <= |name| && Stripped(name) == name[..|Stripped(name)|]
    ensures Stripped(name) != [] ==> Stripped(name)[|Stripped(name)| - 1] != ""
  {
    if name != [] && name[|name| - 1] == "" {
      StrippedIsPrefix(name[..|name| - 1]);
    }
  }

  lemma {:induction false} StrippedDropsEmpty(name: Name)
    ensures |Stripped(name)| <= |name| && forall i :: |Stripped(name)| <= i < |name| ==> name[i] == ""
  {
    if name != [] && name[|name| - 1] == "" {
      StrippedDropsEmpty(name[..|name| - 1]);
    }
  }

  /** Every label up to the last that is not empty, in lower case, and nothing else. */
  lemma NormalIs(name: Name)
    ensures var n := |Normal(name)|;
            && n <= |name| && (n > 0 ==> name[n - 1] != "") && (forall i :: n <= i < |name| ==> name[i] == "")
            && forall i :: 0 <= i < n ==> Normal(name)[i] == Lower(name[i])
  {
    StrippedIsPrefix(LowerAll(name));
    StrippedDropsEmpty(LowerAll(name));
    forall i | |Normal(name)| <= i < |name| ensures name[i] == "" {
      assert |LowerAll(name)[i]| == 0;
    }
  }

  lemma LowerIs(s: string, i: nat)
    requires i < |s|
    ensures Lower(s)[i] == (if s[i] in "ABCDEFGHIJKLMNOPQRSTUVWXYZ" then (s[i] as int + 32) as char else s[i])
  {
    UpperCase(s[i]);
  }

  lemma UpperCase(c: char)
    ensures c in "ABCDEFGHIJKLMNOPQRSTUVWXYZ" <==> 65 <= c as int <= 90
  {
    var upper := "ABCDEFGHIJKLMNOPQRSTUVWXYZ";
    if 65 <= c as int <= 90 {
      assert upper[c as int - 65] == c;
    }
  }

  /** Normal names are the fixed points: normalizing twice changes nothing. */
  lemma NormalIsNormal(name: Name)
    ensures IsNormal(Normal(name))
    ensures IsNormal(name) ==> Normal(name) == name
  {
    StrippedIsPrefix(LowerAll(name));
    if IsNormal(name) {
      forall i | 0 <= i < |name| ensures LowerAll(name)[i] == name[i] {
        assert Lower(name[i]) == name[i];
      }
      assert LowerAll(name) == name;
    }
  }

  /** DOMAIN_PATTERN: at least two labels of lowercase letters, digits and '-'. */
  predicate IsDomain(name: Name) {
    && |name| >= 2
    && (forall i :: 0 <= i < |name| ==> name[i] != "")
    && (forall i, j :: 0 <= i < |name| && 0 <= j < |name[i]| ==>
          'a' <= name[i][j] <= 'z' || '0' <= name[i][j] <= '9' || name[i][j] == '-')
  }

  lemma DomainIsNormal(name: Name)
    requires IsDomain(name)
    ensures IsNormal(name) && Normal(name) == name
  {
    NormalIsNormal(name);
  }
}
