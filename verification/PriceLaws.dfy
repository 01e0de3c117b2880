/** Which names a price is found under, and when a cached index is used, said without the functions that decide it. */
module PriceLaws {
  import opened Common
  import opened PriceIndex
  import Cache = PriceCache

  /** A vendor prefix ends at the last slash; a slash at the very end is no prefix. */
  lemma VendorPrefixes(vendor: string, model: string)
    requires '/' !in model
    ensures TrimVendorPrefix(model) == model
    ensures TrimVendorPrefix(vendor + "/" + model) == if model == "" then vendor + "/" else model
  {
    LastSlashIs(model, -1);
    LastSlashIs(vendor + "/" + model, |vendor|);
    assert (vendor + "/" + model)[|vendor| + 1..] == model;
  }

  lemma LastSlashIs(name: string, i: int)
    requires -1 <= i < |name| && (i >= 0 ==> name[i] == '/') && forall j :: i < j < |name| ==> name[j] != '/'
    ensures LastSlash(name) == i
  {
  }

  /** A date: eight digits, the first two 19 or 20. */
  predicate IsDate(s: string) {
    |s| == 8 && Digits(s) && (s[..2] == "19" || s[..2] == "20")
  }

  /** A name loses a dash and a date at its end, and nothing else. */
  lemma DatesAreTrimmed(base: string, date: string)
    requires IsDate(date)
    ensures TrimDate(base + "-" + date) == base
  {
    var name := base + "-" + date;
    assert name[|name| - 8..|name| - 6] == date[..2] && name[|name| - 6..] == date[2..];
    assert name[..|name| - 9] == base;
  }

  lemma OnlyDatesAreTrimmed(name: string)
    ensures TrimDate(name) != name ==> exists date :: IsDate(date) && name == TrimDate(name) + "-" + date
  {
    if TrimDate(name) != name {
      var n := |name|;
      var date := name[n - 8..];
      assert date[..2] == name[n - 8..n - 6] && date[2..] == name[n - 6..];
      assert date == date[..2] + date[2..];
      assert "19"[0] == '1' && "19"[1] == '9' && "20"[0] == '2' && "20"[1] == '0';
      assert IsDate(date);
      assert name == name[..n - 9] + "-" + date;
    }
  }

  lemma Candidates(name: string)
    requires name != ""
    ensures CandidateNames(name) == [name, TrimVendorPrefix(name), TrimDate(name), TrimDate(TrimVendorPrefix(name))]
    ensures CandidateNames("") == []
  {
    hide TrimDate, TrimVendorPrefix;
  }

  lemma NoSlash(model: string, date: string)
    requires '/' !in model && IsDate(date)
    ensures '/' !in model + "-" + date && model + "-" + date != ""
  {
    assert forall i :: 0 <= i < |date[2..]| ==> date[2..][i] == date[i + 2];
    forall c | c in date
      ensures '0' <= c <= '9'
    {
      var i :| 0 <= i < |date| && date[i] == c;
    }
  }

  lemma Regrouped(vendor: string, model: string, date: string)
    ensures vendor + "/" + (model + "-" + date) == vendor + "/" + model + "-" + date
  {
  }

  /** The names tried for a model with a vendor and a date, best first: as it is, without the vendor, without the date, without
      both. */
  lemma NamesTried(vendor: string, model: string, date: string)
    requires '/' !in model && IsDate(date)
    ensures CandidateNames(vendor + "/" + model + "-" + date) ==
            [vendor + "/" + model + "-" + date, model + "-" + date, vendor + "/" + model, model]
  {
    hide TrimDate, TrimVendorPrefix, CandidateNames, IsDate;
    NoSlash(model, date);
    Regrouped(vendor, model, date);
    Candidates(vendor + "/" + model + "-" + date);
    VendorPrefixes(vendor, model + "-" + date);
    DatesAreTrimmed(vendor + "/" + model, date);
    DatesAreTrimmed(model, date);
  }

  /** A lookup that starts after the index expired or was invalidated does not take it from the cache. */
  lemma StaleIndexIsNotTaken(s: Cache.State, r: nat, w: nat)
    requires Cache.Enabled(s, Cache.FastCheck(r))
    ensures Cache.InPhase(Cache.Next(Cache.Next(s, Cache.Expire), Cache.FastCheck(r)), r, Cache.Waiting)
    ensures Cache.Enabled(s, Cache.Invalidate(w)) ==>
              Cache.InPhase(Cache.Next(Cache.Next(s, Cache.Invalidate(w)), Cache.FastCheck(r)), r, Cache.Waiting)
  {
  }

  /** Installing an index makes it the one the next lookup takes, without waiting. */
  lemma FreshIndexIsTaken(s: Cache.State, r: nat, next: nat)
    requires Cache.Enabled(s, Cache.Install(r)) && Cache.InPhase(s, next, Cache.Starting)
    ensures var s' := Cache.Next(s, Cache.Install(r));
            && Cache.Enabled(s', Cache.FastCheck(next))
            && Cache.InPhase(Cache.Next(s', Cache.FastCheck(next)), next, Cache.Done(s.readers[r].phase.version))
  {
  }
}
