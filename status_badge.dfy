/** The status badge: the status's display text and its color. */
module StatusBadge {
  import opened Wrappers
  import opened Text
  import opened Constants

  /** `replace(/_/g, ' ')`. */
  function Spaced(s: string): (r: string)
    ensures |r| == |s| && '_' !in r
    ensures forall i :: 0 <= i < |s| ==> r[i] == if s[i] == '_' then ' ' else s[i]
  {
    seq(|s|, i requires 0 <= i < |s| => if s[i] == '_' then ' ' else s[i])
  }

  /** Where `\b\w` matches: a word character at the start or after a non-word character. */
  predicate WordStart(t: string, i: int)
    requires 0 <= i < |t|
  {
    IsWordChar(t[i]) && (i == 0 || !IsWordChar(t[i - 1]))
  }

  /** `replace(/\b\w/g, l => l.toUpperCase())`. */
  function CapitaliseWords(t: string): (r: string)
    ensures |r| == |t|
    ensures forall i :: 0 <= i < |t| ==> r[i] == if WordStart(t, i) then ToUpperChar(t[i]) else t[i]
  {
    seq(|t|, i requires 0 <= i < |t| => if WordStart(t, i) then ToUpperChar(t[i]) else t[i])
  }

  /** `formatStatus`. */
  function FormatStatus(status: string): (r: string)
    ensures |r| == |status| && '_' !in r
  {
    CapitaliseWords(ToLower(Spaced(status)))
  }

  /** A status written in ASCII letters and underscores. */
  predicate StatusName(s: string) {
    forall i :: 0 <= i < |s| ==> IsAsciiUpper(s[i]) || IsAsciiLower(s[i]) || s[i] == '_'
  }

  /** For such a status each underscore becomes a space, the first letter of each word is
      uppercase, and every other letter lowercase. */
  lemma FormatStatusWords(s: string)
    requires StatusName(s)
    ensures var r := FormatStatus(s);
      forall i :: 0 <= i < |s| ==>
        && (s[i] == '_' <==> r[i] == ' ')
        && (s[i] != '_' && (i == 0 || s[i - 1] == '_') ==> r[i] == ToUpperChar(s[i]))
        && (s[i] != '_' && i > 0 && s[i - 1] != '_' ==> r[i] == ToLowerChar(s[i]))
  {
    var t := ToLower(Spaced(s));
    var r := FormatStatus(s);
    assert r == CapitaliseWords(t);
    forall i | 0 <= i < |s|
      ensures IsWordChar(t[i]) <==> s[i] != '_'
      ensures s[i] != '_' ==> ToUpperChar(t[i]) == ToUpperChar(s[i])
    {
      assert t[i] == ToLowerChar(Spaced(s)[i]);
      LetterCase(s[i]);
    }
    forall i | 0 <= i < |s|
      ensures (s[i] == '_' <==> r[i] == ' ')
      ensures s[i] != '_' && (i == 0 || s[i - 1] == '_') ==> r[i] == ToUpperChar(s[i])
      ensures s[i] != '_' && i > 0 && s[i - 1] != '_' ==> r[i] == ToLowerChar(s[i])
    {
      assert r[i] == if WordStart(t, i) then ToUpperChar(t[i]) else t[i];
      if s[i] == '_' {
        assert !WordStart(t, i);
      } else if i == 0 || s[i - 1] == '_' {
        assert WordStart(t, i);
        assert IsWordChar(r[i]);
      } else {
        assert !WordStart(t, i);
        assert IsWordChar(r[i]);
      }
    }
  }

  /** A status character after `Spaced` and `ToLower`: a word character exactly when it is a
      letter, with the letter's uppercase form kept. */
  lemma LetterCase(c: char)
    requires IsAsciiUpper(c) || IsAsciiLower(c) || c == '_'
    ensures var l := ToLowerChar(if c == '_' then ' ' else c);
      (IsWordChar(l) <==> c != '_') && (c != '_' ==> ToUpperChar(l) == ToUpperChar(c))
  {
  }

  /** Formatting a formatted status changes nothing. */
  lemma FormatStatusIdempotent(s: string)
    requires StatusName(s)
    ensures FormatStatus(FormatStatus(s)) == FormatStatus(s)
  {
    var r := FormatStatus(s);
    var t := ToLower(Spaced(s));
    var t2 := ToLower(Spaced(r));
    assert Spaced(r) == r;
    forall i | 0 <= i < |s|
      ensures IsWordChar(t2[i]) == IsWordChar(t[i])
      ensures t2[i] == ToLowerChar(t[i])
      ensures WordStart(t2, i) == WordStart(t, i)
    {
      assert IsWordChar(r[i]) == IsWordChar(t[i]);
      if i > 0 {
        assert IsWordChar(r[i - 1]) == IsWordChar(t[i - 1]);
      }
    }
    forall i | 0 <= i < |s|
      ensures FormatStatus(r)[i] == r[i]
    {
    }
  }

  lemma PendingApprovalExample()
    ensures FormatStatus("PENDING_APPROVAL") == "Pending Approval"
  {
    SpacedPendingApproval();
    LowerPendingApproval();
    CapitalisedPendingApproval();
  }

  lemma SpacedPendingApproval()
    ensures Spaced("PENDING_APPROVAL") == "PENDING APPROVAL"
  {
    var s, r := "PENDING_APPROVAL", "PENDING APPROVAL";
    forall i | 0 <= i < |s|
      ensures Spaced(s)[i] == r[i]
    {
    }
  }

  lemma LowerPendingApproval()
    ensures ToLower("PENDING APPROVAL") == "pending approval"
  {
    var s, r := "PENDING APPROVAL", "pending approval";
    forall i | 0 <= i < |s|
      ensures ToLower(s)[i] == r[i]
    {
    }
  }

  lemma CapitalisedPendingApproval()
    ensures CapitaliseWords("pending approval") == "Pending Approval"
  {
    var s, r := "pending approval", "Pending Approval";
    forall i | 0 <= i < |s|
      ensures CapitaliseWords(s)[i] == r[i]
    {
    }
  }

  /** `STATUS_COLORS[status]`; a status outside the table has no color. */
  function BadgeColor(status: string): (c: Option<string>)
    ensures c.Some? <==> status in StatusColors
  {
    if status in StatusColors then Some(StatusColors[status]) else None
  }

  /** Every front-end status has a color; the backend's other names get none. */
  lemma BadgeColorCoverage(status: string)
    ensures status in CaseStatus ==> BadgeColor(status).Some?
    ensures status in ["READY_FOR_ASSIGNMENT", "UNDER_INVESTIGATION", "CLOSED", "REJECTED"] ==> BadgeColor(status).None?
  {
    StatusColorsCover();
    BackendStatusesMissing();
  }
}
