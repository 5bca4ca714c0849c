/** The order-entry form: a four-field draft, symbol autocomplete and submission. */
module OrderFormComponent {
  import opened Models

  /** ASCII lower-casing of one character. */
  function LowerChar(c: char): char {
    if 'A' <= c <= 'Z' then (c as int + 32) as char else c
  }

  /** ASCII lower-casing of a string, character by character. */
  function Lower(s: string): string {
    seq(|s|, i requires 0 <= i < |s| => LowerChar(s[i]))
  }

  /** The symbol of `stock` starts with `value`, ignoring case. */
  predicate MatchesPrefix(stock: Stock, value: string) {
    Lower(value) <= Lower(stock.symbol)
  }

  /** Autocomplete candidates: the stocks whose symbol starts with `value`, ignoring case. */
  function Suggestions(stocks: seq<Stock>, value: string): (r: seq<Stock>)
    ensures |r| <= |stocks|
    ensures forall i :: 0 <= i < |r| ==> MatchesPrefix(r[i], value)
  {
    if stocks == [] then []
    else (if MatchesPrefix(stocks[0], value) then [stocks[0]] else []) + Suggestions(stocks[1..], value)
  }

  /** Typed values that lower-case alike offer the same candidates. */
  lemma {:induction false} SuggestionsCaseInsensitive(stocks: seq<Stock>, v: string, w: string)
    requires Lower(v) == Lower(w)
    ensures Suggestions(stocks, v) == Suggestions(stocks, w)
  {
    if stocks != [] {
      SuggestionsCaseInsensitive(stocks[1..], v, w);
    }
  }

  /** `r` is `s` with some elements dropped and the rest in their original order. */
  ghost predicate IsSubsequence(r: seq<Stock>, s: seq<Stock>)
    decreases |s|
  {
    if |r| == 0 then true
    else if |s| == 0 then false
    else (r[0] == s[0] && IsSubsequence(r[1..], s[1..])) || IsSubsequence(r, s[1..])
  }

  /** Each matching stock is offered as often as it is listed; no other stock is offered. */
  lemma {:induction false} SuggestionsExact(stocks: seq<Stock>, value: string, x: Stock)
    ensures multiset(Suggestions(stocks, value))[x] ==
            if MatchesPrefix(x, value) then multiset(stocks)[x] else 0
  {
    if stocks != [] {
      SuggestionsExact(stocks[1..], value, x);
      assert stocks == [stocks[0]] + stocks[1..];
    }
  }

  /** A stock is offered exactly when it is listed and matches. */
  lemma SuggestionsMembership(stocks: seq<Stock>, value: string, x: Stock)
    ensures x in Suggestions(stocks, value) <==> x in stocks && MatchesPrefix(x, value)
  {
    SuggestionsExact(stocks, value, x);
  }

  /** The candidates keep the relative order of the stock list. */
  lemma {:induction false} SuggestionsKeepOrder(stocks: seq<Stock>, value: string)
    ensures IsSubsequence(Suggestions(stocks, value), stocks)
  {
    if stocks != [] {
      SuggestionsKeepOrder(stocks[1..], value);
      var rest := Suggestions(stocks[1..], value);
      if MatchesPrefix(stocks[0], value) {
        assert Suggestions(stocks, value) == [stocks[0]] + rest;
        assert ([stocks[0]] + rest)[1..] == rest;
      } else {
        assert Suggestions(stocks, value) == rest;
      }
    }
  }

  /** There are candidates exactly when some listed stock matches. */
  lemma {:induction false} SuggestionsNonEmpty(stocks: seq<Stock>, value: string)
    ensures |Suggestions(stocks, value)| > 0 <==> exists i :: 0 <= i < |stocks| && MatchesPrefix(stocks[i], value)
  {
    if stocks != [] {
      SuggestionsNonEmpty(stocks[1..], value);
      if !MatchesPrefix(stocks[0], value) {
        forall i | 1 <= i < |stocks| && MatchesPrefix(stocks[i], value)
          ensures exists j :: 0 <= j < |stocks[1..]| && MatchesPrefix(stocks[1..][j], value)
        {
          assert stocks[1..][i - 1] == stocks[i];
        }
      }
    }
  }

  /** The names of the form's inputs. */
  datatype Field = SymbolField | SideField | QuantityField | PriceField

  /** The form draft: four text inputs. */
  datatype FormData = FormData(symbol: string, side: string, quantity: string, price: string) {

    function Get(f: Field): string {
      match f
      case SymbolField => symbol
      case SideField => side
      case QuantityField => quantity
      case PriceField => price
    }

    /** The draft with input `f` set to `value`. */
    function Set(f: Field, value: string): (r: FormData)
      ensures r.Get(f) == value
      ensures forall g :: g != f ==> r.Get(g) == Get(g)
    {
      match f
      case SymbolField => this.(symbol := value)
      case SideField => this.(side := value)
      case QuantityField => this.(quantity := value)
      case PriceField => this.(price := value)
    }
  }

  const EmptyDraft := FormData("", "buy", "", "")

  /** The request body built from a draft on submission. */
  datatype OrderPayload = OrderPayload(symbol: string, side: string, quantity: int, price: real)

  class OrderForm {
    var formData: FormData
    var loading: bool
    var error: Option<string>
    var suggestions: seq<Stock>
    var showSuggestions: bool

    /** The autocomplete dropdown is on screen. */
    predicate DropdownShown()
      reads this
    {
      showSuggestions && |suggestions| > 0
    }

    /** A fresh form: empty draft on the buy side, no error, idle, no dropdown. */
    constructor ()
      ensures formData == EmptyDraft
      ensures !loading && error == None
      ensures suggestions == [] && !showSuggestions
      ensures !DropdownShown()
    {
      formData := EmptyDraft;
      loading := false;
      error := None;
      suggestions := [];
      showSuggestions := false;
    }

    /** An edit of input `name`; a symbol edit recomputes the candidates from `availableStocks`. */
    method HandleChange(name: Field, value: string, availableStocks: seq<Stock>)
      modifies this
      ensures formData == old(formData).Set(name, value)
      ensures loading == old(loading) && error == old(error)
      ensures name == SymbolField && |value| > 0 ==>
        && suggestions == Suggestions(availableStocks, value)
        && showSuggestions
        && (DropdownShown() <==> exists i :: 0 <= i < |availableStocks| && MatchesPrefix(availableStocks[i], value))
      ensures name == SymbolField && |value| == 0 ==>
        suggestions == [] && !showSuggestions && !DropdownShown()
      ensures name != SymbolField ==>
        suggestions == old(suggestions) && showSuggestions == old(showSuggestions)
    {
      formData := formData.Set(name, value);
      if name == SymbolField {
        if |value| > 0 {
          suggestions := Suggestions(availableStocks, value);
          showSuggestions := true;
          SuggestionsNonEmpty(availableStocks, value);
        } else {
          suggestions := [];
          showSuggestions := false;
        }
      }
    }

    /** Picking a candidate fills symbol and price (`format` prints a price with two
        decimals) and closes the dropdown. */
    method HandleSuggestionClick(stock: Stock, format: real -> string)
      modifies this
      ensures formData == FormData(stock.symbol, old(formData).side, old(formData).quantity, format(stock.price))
      ensures loading == old(loading) && error == old(error)
      ensures suggestions == [] && !showSuggestions && !DropdownShown()
    {
      formData := formData.(symbol := stock.symbol, price := format(stock.price));
      suggestions := [];
      showSuggestions := false;
    }

    /** A mouse press; one outside the symbol input's wrapper closes the dropdown. */
    method HandleClickOutside(insideWrapper: bool)
      modifies this
      ensures formData == old(formData) && suggestions == old(suggestions)
      ensures loading == old(loading) && error == old(error)
      ensures showSuggestions == (old(showSuggestions) && insideWrapper)
    {
      if !insideWrapper {
        showSuggestions := false;
      }
    }

    /** The first half of a submission, up to the request: mark busy, clear the error and
        build the payload, converting quantity and price with the given parsers. */
    method StartSubmit(parseQuantity: string -> int, parsePrice: string -> real) returns (payload: OrderPayload)
      modifies this
      ensures payload == OrderPayload(formData.symbol, formData.side,
                                      parseQuantity(formData.quantity), parsePrice(formData.price))
      ensures loading && error == None
      ensures formData == old(formData)
      ensures suggestions == old(suggestions) && showSuggestions == old(showSuggestions)
    {
      loading := true;
      error := None;
      payload := OrderPayload(formData.symbol, formData.side,
                              parseQuantity(formData.quantity), parsePrice(formData.price));
    }

    /** The second half, once the request settles: on success reset the draft and call
        the parent's callback (when one is given); on failure show the message and keep
        the draft. Returns how many times the callback ran. */
    method CompleteSubmit(outcome: Result<Order>, hasCallback: bool) returns (callbacks: nat)
      modifies this
      ensures !loading
      ensures suggestions == old(suggestions) && showSuggestions == old(showSuggestions)
      ensures outcome.Ok? ==>
        && formData == EmptyDraft
        && error == old(error)
        && callbacks == (if hasCallback then 1 else 0)
      ensures outcome.Err? ==>
        && formData == old(formData)
        && error == Some(outcome.message)
        && callbacks == 0
    {
      callbacks := 0;
      if outcome.Ok? {
        formData := EmptyDraft;
        if hasCallback {
          callbacks := callbacks + 1;
        }
      } else {
        error := Some(outcome.message);
      }
      loading := false;
    }
  }
}
