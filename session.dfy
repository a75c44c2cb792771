/** The app component's state and the button handlers that change it: the
    screen state machine, boarding and payment, wallet top-up, feedback,
    the search query and the route choice. */
module Session {
  import opened Wrappers
  import opened Text
  import opened Fleet
  import opened Search
  import opened Account

  /** The values the `screen` field takes. `Track` is what the bottom
      navigation's "Track" buttons set; no render branch is written for it. */
  datatype Screen = SignIn | Home | EvList | EvDetails | Pay | Confirmation | Profile | Track

  /** The render branch the component takes. */
  datatype View = SignInView | HomeView | EvListView | EvDetailsView | PayView
                | ConfirmationView | ProfileView | UnknownView

  /** The render cascade: each screen renders its own branch, except that
      the details branch also needs a selected shuttle, and `Track` (or the
      details screen with nothing selected) falls through to "Unknown screen". */
  function ViewOf(screen: Screen, selected: Option<Vehicle>): (v: View)
    ensures v == UnknownView <==> screen == Track || (screen == EvDetails && selected.None?)
    ensures v == EvDetailsView ==> selected.Some?
  {
    match screen
    case SignIn => SignInView
    case Home => HomeView
    case EvList => EvListView
    case EvDetails => if selected.Some? then EvDetailsView else UnknownView
    case Pay => PayView
    case Confirmation => ConfirmationView
    case Profile => ProfileView
    case Track => UnknownView
  }

  /** When the details and payment screens always have a shuttle selected,
      the fallback screen is reached exactly through `Track`. */
  lemma FallbackOnlyThroughTrack(screen: Screen, selected: Option<Vehicle>)
    requires screen == EvDetails || screen == Pay ==> selected.Some?
    ensures ViewOf(screen, selected) == UnknownView <==> screen == Track
  {
  }

  const NoSeatsNotice: string := "No seats available."
  const FeedbackSavedNotice: string := "Thanks — feedback saved!"
  const SeedFeedbackText: string := "Quick ride to the main gate."

  /** The four route tiles of the home screen. */
  const RouteTiles: seq<string> :=
    ["Hostel 6 to Main gate", "Hostel 5 to Main gate", "Hostel 18 to Main gate", "Hostel 17 to LHC"]

  /** The component's state. Notices (`alert`) are returned to the caller. */
  class App {
    var screen: Screen
    var evs: seq<Vehicle>
    var selectedEV: Option<Vehicle>
    var wallet: int
    var ridesCount: int
    var ratings: seq<int>
    var feedbacks: seq<Feedback>
    var query: string
    var selectedRoute: string

    /** What every reachable state satisfies: consistent shuttles with
        distinct ids, no negative balance or ride count, only star ratings,
        only trimmed non-empty feedback, a selected shuttle whose id is still
        listed, and a selection whenever the details or payment screen is
        showing. Under it the fallback screen is reached only through
        `Track`, and (by the contract of `Latest`) `latestEV` always finds the
        listed copy of the selection, never the `|| selectedEV` snapshot. */
    ghost predicate Valid()
      reads this
      ensures Valid() ==> (CurrentView() == UnknownView <==> screen == Track)
    {
      && AllConsistent(evs) && UniqueIds(evs)
      && wallet >= 0 && ridesCount >= 0
      && (forall i :: 0 <= i < |ratings| ==> IsStarRating(ratings[i]))
      && AllTidy(feedbacks)
      && (selectedEV.Some? ==> HasId(evs, selectedEV.value.id))
      && (screen == EvDetails || screen == Pay ==> selectedEV.Some?)
    }

    function CurrentView(): View
      reads this
    {
      ViewOf(screen, selectedEV)
    }

    /** The initial state, with the seed values the app starts from when
        nothing is stored; `now` is the seed feedback's date. */
    constructor (now: string)
      ensures Valid()
      ensures screen == SignIn && evs == InitialEVs && selectedEV == None
      ensures wallet == 150 && ridesCount == 3 && ratings == [5, 4]
      ensures feedbacks == [Feedback(1, SeedFeedbackText, now)]
      ensures query == "" && selectedRoute == InitialEVs[0].route
    {
      var seed := Feedback(1, SeedFeedbackText, now);
      InitialEVsValid();
      SeedFeedbackTidy(seed);
      screen := SignIn;
      evs := InitialEVs;
      selectedEV := None;
      wallet := 150;
      ridesCount := 3;
      ratings := [5, 4];
      feedbacks := [seed];
      query := "";
      selectedRoute := InitialEVs[0].route;
    }

    /** "Sign in" (`signIn`): credentials are not checked. */
    method SubmitSignIn()
      requires Valid() && CurrentView() == SignInView
      modifies this`screen
      ensures Valid() && screen == Home
    {
      screen := Home;
    }

    /** "Find EVs nearby" on the home screen. */
    method FindEvs()
      requires Valid() && CurrentView() == HomeView
      modifies this`screen
      ensures Valid() && screen == EvList
    {
      screen := EvList;
    }

    /** "Back" on the list screen. */
    method BackToHome()
      requires Valid() && CurrentView() == EvListView
      modifies this`screen
      ensures Valid() && screen == Home
    {
      screen := Home;
    }

    /** "View", "Details" or "Track" on a listed shuttle (`openDetails`). */
    method OpenDetails(ev: Vehicle)
      requires Valid() && (CurrentView() == HomeView || CurrentView() == EvListView)
      requires ev in evs
      modifies this`screen, this`selectedEV
      ensures Valid() && screen == EvDetails && selectedEV == Some(ev)
      ensures CurrentView() == EvDetailsView
    {
      assert HasId(evs, ev.id) by {
        var i :| 0 <= i < |evs| && evs[i] == ev;
      }
      selectedEV := Some(ev);
      screen := EvDetails;
    }

    /** "Back" on the details screen. */
    method BackToList()
      requires Valid() && CurrentView() == EvDetailsView
      modifies this`screen
      ensures Valid() && screen == EvList
    {
      screen := EvList;
    }

    /** "Board / Pay" on the details screen: refused with a notice while the
        current copy of the selected shuttle has no seat. */
    method BoardOrPay() returns (notice: Option<string>)
      requires Valid() && CurrentView() == EvDetailsView
      modifies this`screen
      ensures Valid()
      ensures Latest(evs, selectedEV.value).seats <= 0 ==> screen == EvDetails && notice == Some(NoSeatsNotice)
      ensures Latest(evs, selectedEV.value).seats > 0 ==> screen == Pay && notice == None
    {
      var latest := Latest(evs, selectedEV.value);
      if latest.seats <= 0 {
        notice := Some(NoSeatsNotice);
        return;
      }
      notice := None;
      screen := Pay;
    }

    /** "Back" on the payment screen. */
    method BackToDetails()
      requires Valid() && CurrentView() == PayView
      modifies this`screen
      ensures Valid() && screen == EvDetails
    {
      screen := EvDetails;
    }

    /** "Pay & Board": back to the details screen with a notice when the
        selected shuttle has no seat left, otherwise `doPayment("UPI")`. */
    method PayAndBoard() returns (notice: Option<string>)
      requires Valid() && CurrentView() == PayView
      modifies this`screen, this`evs, this`wallet, this`ridesCount
      ensures Valid() && selectedEV.Some?
      ensures Latest(old(evs), selectedEV.value).seats <= 0 ==>
                && screen == EvDetails && notice == Some(NoSeatsNotice)
                && evs == old(evs) && wallet == old(wallet) && ridesCount == old(ridesCount)
      ensures Latest(old(evs), selectedEV.value).seats > 0 ==>
                && screen == Confirmation && notice == PaymentNotice(old(wallet), Upi)
                && wallet == WalletAfterPayment(old(wallet), Upi)
                && evs == BoardSelected(old(evs), selectedEV.value.id)
                && ridesCount == old(ridesCount) + 1
    {
      var canBoard := Latest(evs, selectedEV.value).seats > 0;
      if !canBoard {
        notice := Some(NoSeatsNotice);
        screen := EvDetails;
        return;
      }
      notice := DoPayment(Upi);
    }

    /** `doPayment`: settle the fare as the method and the wallet say, then
        board, on every branch exactly once. */
    method DoPayment(payMethod: string) returns (notice: Option<string>)
      requires Valid() && selectedEV.Some?
      modifies this`screen, this`evs, this`wallet, this`ridesCount
      ensures Valid()
      ensures wallet == WalletAfterPayment(old(wallet), payMethod)
      ensures notice == PaymentNotice(old(wallet), payMethod)
      ensures evs == BoardSelected(old(evs), selectedEV.value.id)
      ensures ridesCount == old(ridesCount) + 1 && screen == Confirmation
    {
      if payMethod == Upi && wallet >= Fare {
        wallet := Max(0, wallet - Fare);
        notice := None;
        FinalizeBoarding();
      } else if payMethod == Upi && wallet < Fare {
        notice := Some(LowWalletNotice);
        FinalizeBoarding();
      } else {
        notice := None;
        FinalizeBoarding();
      }
    }

    /** `finalizeBoarding`: one seat fewer on the selected shuttle, one more
        ride, and the confirmation screen. */
    method FinalizeBoarding()
      requires Valid() && selectedEV.Some?
      modifies this`screen, this`evs, this`ridesCount
      ensures Valid()
      ensures evs == BoardSelected(old(evs), selectedEV.value.id)
      ensures ridesCount == old(ridesCount) + 1 && screen == Confirmation
    {
      BoardingKeepsFleetValid(evs, selectedEV.value.id);
      evs := BoardSelected(evs, selectedEV.value.id);
      ridesCount := ridesCount + 1;
      screen := Confirmation;
    }

    /** "Go to Profile" on the confirmation screen. */
    method GoToProfile()
      requires Valid() && CurrentView() == ConfirmationView
      modifies this`screen
      ensures Valid() && screen == Profile
    {
      screen := Profile;
    }

    /** "Home" in the bottom navigation of the home and profile screens. */
    method NavHome()
      requires Valid() && (CurrentView() == HomeView || CurrentView() == ProfileView)
      modifies this`screen
      ensures Valid() && screen == Home
    {
      screen := Home;
    }

    /** "Profile" in the bottom navigation of the home and profile screens. */
    method NavProfile()
      requires Valid() && (CurrentView() == HomeView || CurrentView() == ProfileView)
      modifies this`screen
      ensures Valid() && screen == Profile
    {
      screen := Profile;
    }

    /** "Track" in the home screen's bottom navigation: clears the selection
        and lands on the fallback screen. */
    method HomeNavTrack()
      requires Valid() && CurrentView() == HomeView
      modifies this`screen, this`selectedEV
      ensures Valid() && screen == Track && selectedEV == None
      ensures CurrentView() == UnknownView
    {
      screen := Track;
      selectedEV := None;
    }

    /** "Track" in the profile screen's bottom navigation: keeps the
        selection and lands on the fallback screen. */
    method ProfileNavTrack()
      requires Valid() && CurrentView() == ProfileView
      modifies this`screen
      ensures Valid() && screen == Track
      ensures CurrentView() == UnknownView
    {
      screen := Track;
    }

    /** "Go Home", the only action of the fallback screen. */
    method FallbackGoHome()
      requires Valid() && CurrentView() == UnknownView
      modifies this`screen
      ensures Valid() && screen == Home
    {
      screen := Home;
    }

    /** "Add ₹100" on the profile screen. */
    method TopUp()
      requires Valid() && CurrentView() == ProfileView
      modifies this`wallet
      ensures Valid() && wallet == old(wallet) + TopUpAmount
    {
      wallet := wallet + TopUpAmount;
    }

    /** The feedback form's "Submit" (`submitFeedback`): the trimmed text goes
        in front of the entries unless it is empty, a star rating goes at the
        end of the ratings, anything else is dropped; a notice either way. */
    method SubmitFeedback(text: string, ratingValue: int, id: int, date: string) returns (notice: string)
      requires Valid() && CurrentView() == ProfileView
      modifies this`feedbacks, this`ratings
      ensures Valid()
      ensures feedbacks == FeedbacksAfter(old(feedbacks), text, id, date)
      ensures ratings == RatingsAfter(old(ratings), ratingValue)
      ensures notice == FeedbackSavedNotice
    {
      FeedbacksStayTidy(feedbacks, text, id, date);
      feedbacks := FeedbacksAfter(feedbacks, text, id, date);
      ratings := RatingsAfter(ratings, ratingValue);
      notice := FeedbackSavedNotice;
    }

    /** Typing in the home screen's search box. */
    method SetQuery(q: string)
      requires Valid() && CurrentView() == HomeView
      modifies this`query
      ensures Valid() && query == q
    {
      query := q;
    }

    /** Choosing one of the home screen's route tiles. */
    method SelectRoute(route: string)
      requires Valid() && CurrentView() == HomeView && route in RouteTiles
      modifies this`selectedRoute
      ensures Valid() && selectedRoute == route
    {
      selectedRoute := route;
    }
  }

  /** The seed feedback entry is stored trimmed. */
  lemma SeedFeedbackTidy(seed: Feedback)
    requires seed.text == SeedFeedbackText
    ensures AllTidy([seed])
  {
    assert seed.text[0] == 'Q' && seed.text[|seed.text| - 1] == '.';
    TidyWhenEndsVisible(seed);
    TidySingleton(seed);
  }

  /** A feedback text that starts and ends with visible characters is tidy:
      `trim()` leaves it as it is. */
  lemma TidyWhenEndsVisible(f: Feedback)
    requires f.text != "" && !IsWhitespace(f.text[0]) && !IsWhitespace(f.text[|f.text| - 1])
    ensures Tidy(f) && Trim(f.text) == f.text
  {
    TrimFixesTrimmed(f.text);
  }
}
