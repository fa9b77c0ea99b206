/** src/services.py: the search for transfers to private persons among a
    list of transactions given as dictionaries. */
module Services {
  import opened Common
  import opened Transactions

  // ---------------------------------------------------------------------
  // the name pattern `[А-ЯA-Z][а-яa-z]* [А-ЯA-Z][.]`
  // ---------------------------------------------------------------------

  /** `[А-ЯA-Z]`: a Cyrillic capital from А to Я (Ё is not in the range) or a
      Latin capital. */
  predicate IsUpper(c: char) {
    ('А' <= c <= 'Я') || ('A' <= c <= 'Z')
  }

  /** `[а-яa-z]`: a Cyrillic small letter from а to я (ё is not in the range)
      or a Latin small letter. */
  predicate IsLower(c: char) {
    ('а' <= c <= 'я') || ('a' <= c <= 'z')
  }

  /** A lower-case run followed by a space, a capital and a full stop is a
      prefix of `s`; the run is taken greedily, which loses nothing since a
      space is never lower-case. */
  predicate AfterCapital(s: string)
    decreases |s|
  {
    if |s| > 0 && IsLower(s[0]) then AfterCapital(s[1..])
    else |s| >= 3 && s[0] == ' ' && IsUpper(s[1]) && s[2] == '.'
  }

  /** `name_match.match(s) is not None`: the pattern matches at the start of
      `s` (whatever follows is ignored). */
  predicate NameLike(s: string) {
    |s| > 0 && IsUpper(s[0]) && AfterCapital(s[1..])
  }

  /** The pattern matches at the start of `s` with a lower-case run of length
      `k`: a capital, `k` small letters, a space, a capital and a full stop. */
  ghost predicate MatchesWithRun(s: string, k: nat) {
    && k + 4 <= |s|
    && IsUpper(s[0])
    && (forall i :: 1 <= i <= k ==> IsLower(s[i]))
    && s[k + 1] == ' ' && IsUpper(s[k + 2]) && s[k + 3] == '.'
  }

  lemma {:induction false} AfterCapitalRun(s: string)
    ensures AfterCapital(s) <==> exists k: nat :: MatchesWithRun(['A'] + s, k)
    decreases |s|
  {
    var t := ['A'] + s;
    if |s| > 0 && IsLower(s[0]) {
      AfterCapitalRun(s[1..]);
      var t' := ['A'] + s[1..];
      if AfterCapital(s) {
        var k: nat :| MatchesWithRun(t', k);
        assert MatchesWithRun(t, k + 1) by {
          forall i | 1 <= i <= k + 1 ensures IsLower(t[i]) {
            if i > 1 {
              assert t[i] == t'[i - 1];
            }
          }
        }
      }
      if exists k: nat :: MatchesWithRun(t, k) {
        var k: nat :| MatchesWithRun(t, k);
        assert k > 0;
        assert MatchesWithRun(t', k - 1) by {
          forall i | 1 <= i <= k - 1 ensures IsLower(t'[i]) {
            assert t'[i] == t[i + 1];
          }
        }
      }
    } else {
      if exists k: nat :: MatchesWithRun(t, k) {
        var k: nat :| MatchesWithRun(t, k);
        assert t[1] == s[0];
        assert k == 0;
      }
      if AfterCapital(s) {
        assert MatchesWithRun(t, 0);
      }
    }
  }

  /** The matcher agrees with the pattern read as a regular expression: it
      accepts exactly the strings that start with a capital, some small
      letters, a space, a capital and a full stop. */
  lemma NameLikeMeansPattern(s: string)
    ensures NameLike(s) <==> exists k: nat :: MatchesWithRun(s, k)
  {
    if |s| > 0 {
      AfterCapitalRun(s[1..]);
      var t := ['A'] + s[1..];
      forall k: nat ensures MatchesWithRun(t, k) && IsUpper(s[0]) <==> MatchesWithRun(s, k) {
        if k + 4 <= |s| {
          assert forall i :: 1 <= i < |s| ==> t[i] == s[i];
        }
      }
    }
  }

  /** Descriptions of a transfer to a person match ... */
  lemma NameLikeAccepts()
    ensures NameLike("Иван С.")
    ensures NameLike("Ян К. перевод")
    ensures NameLike("K Y.")
  {
    assert AfterCapital("ван С.") by {
      assert "ван С."[1..] == "ан С.";
      assert "ан С."[1..] == "н С.";
      assert "н С."[1..] == " С.";
    }
    assert AfterCapital("н К. перевод") by {
      assert "н К. перевод"[1..] == " К. перевод";
    }
  }

  /** ... while a company name, a small first letter and a capital outside
      the А to Я range do not. */
  lemma NameLikeRefuses()
    ensures !NameLike("ООО Ромашка")
    ensures !NameLike("иван С.")
    ensures !NameLike("Ёжик С.")
  {
  }

  // ---------------------------------------------------------------------
  // search_individual_transfers
  // ---------------------------------------------------------------------

  /** A transaction dictionary: the keys it has and their values. */
  datatype Entry = Entry(keys: set<Column>, tx: Transaction)

  /** The category of transfers. */
  const TransfersCategory: string := "Переводы"

  /** The outcome of the loop body on one entry: a `KeyError` escapes, the
      entry is skipped by a `continue`, or it is appended. */
  datatype Check = Missing | Skip | Keep

  /** The loop body's checks, in their order: status, category, amount,
      description; a key is read only when the checks before it passed. */
  function Examine(e: Entry): (c: Check)
    ensures c == Keep <==>
      && {Status, Category, PaymentAmount, Description} <= e.keys
      && e.tx.status == StatusOk && e.tx.category == TransfersCategory
      && e.tx.paymentAmount < 0.0 && NameLike(e.tx.description)
    ensures c == Missing ==> !({Status, Category, PaymentAmount, Description} <= e.keys)
  {
    if Status !in e.keys then Missing
    else if e.tx.status != StatusOk then Skip
    else if Category !in e.keys then Missing
    else if e.tx.category != TransfersCategory then Skip
    else if PaymentAmount !in e.keys then Missing
    else if e.tx.paymentAmount >= 0.0 then Skip
    else if Description !in e.keys then Missing
    else if !NameLike(e.tx.description) then Skip
    else Keep
  }

  /** The entries the loop collects, or `None` when a `KeyError` ends it. */
  function Transfers(entries: seq<Entry>): (r: Option<seq<Entry>>)
    ensures r.None? <==> exists i :: 0 <= i < |entries| && Examine(entries[i]) == Missing
    ensures r.Some? ==> IsSubseq(r.value, entries)
    ensures r.Some? ==> forall e :: e in r.value <==> e in entries && Examine(e) == Keep
    decreases |entries|
  {
    if entries == [] then Some([])
    else
      var init, last := entries[..|entries| - 1], entries[|entries| - 1];
      assert entries == init + [last];
      match Transfers(init)
      case None => None
      case Some(found) =>
        match Examine(last)
        case Missing => None
        case Skip =>
          SubseqSkip(found, init, last);
          Some(found)
        case Keep =>
          SubseqKeep(found, init, last);
          Some(found + [last])
  }

  /** Each kept entry is collected as often as it occurs in the input. */
  lemma {:induction false} TransfersCounts(entries: seq<Entry>)
    requires Transfers(entries).Some?
    ensures forall e :: multiset(Transfers(entries).value)[e] == if Examine(e) == Keep then multiset(entries)[e] else 0
    decreases |entries|
  {
    if entries != [] {
      var init, last := entries[..|entries| - 1], entries[|entries| - 1];
      assert entries == init + [last];
      TransfersCounts(init);
    }
  }

  /** `search_individual_transfers(transactions)`: the transfers found, with
      the empty list standing for the empty string the source returns for
      an empty input, a missing key, or no transfer found (the JSON text of
      a non-empty list is never empty). */
  method SearchIndividualTransfers(entries: seq<Entry>) returns (found: seq<Entry>)
    ensures found == Transfers(entries).GetOr([])
  {
    found := [];
    if |entries| == 0 {
      return;
    }
    var i := 0;
    while i < |entries|
      invariant 0 <= i <= |entries|
      invariant Transfers(entries[..i]) == Some(found)
    {
      var e := entries[i];
      var check := Examine(e);
      if check == Missing {
        TransfersStopsAt(entries, i);
        found := [];
        return;
      }
      TransfersStep(entries, i);
      if check == Keep {
        found := found + [e];
      }
      i := i + 1;
    }
    assert entries[..i] == entries;
  }

  /** One more entry examined: the collected entries grow by it when it is
      kept and stay as they were when it is skipped. */
  lemma TransfersStep(entries: seq<Entry>, i: nat)
    requires i < |entries| && Examine(entries[i]) != Missing
    ensures Transfers(entries[..i + 1]) ==
      match Transfers(entries[..i])
      case None => None
      case Some(found) => Some(if Examine(entries[i]) == Keep then found + [entries[i]] else found)
  {
    assert entries[..i + 1][..i] == entries[..i];
  }

  /** A missing key in any entry ends the whole search. */
  lemma TransfersStopsAt(entries: seq<Entry>, i: nat)
    requires i < |entries| && Examine(entries[i]) == Missing
    ensures Transfers(entries).None?
  {
  }
}
