/**
 * The popup's configuration (`model.kt`): the immutable `ReactionsConfig`, the
 * horizontal `PopupGravity` policy, and the fluent `ReactionsConfigBuilder`
 * whose setters each change one field and whose `Build` rejects an empty
 * reaction list.
 */
module Model {
  import opened Common

  /** `android.widget.ImageView.ScaleType`. */
  datatype ScaleType =
    | Matrix | FitXY | FitStart | FitCenter | FitEnd | CenterScale | CenterCrop | CenterInside

  /**
   * The closure a reaction uses to build its view. Closures are compared by
   * identity: `ImageResourceFactory` is the closure built for one element of a
   * resource-id array (`instance` tells apart the closures of one call), and
   * `CustomFactory` stands for any closure supplied by the application.
   */
  datatype ViewFactory =
    | ImageResourceFactory(resource: int, scaleType: ScaleType, instance: nat)
    | CustomFactory(id: nat)

  /** One selectable icon: the data class `Reaction(onView, scaleType)`. */
  datatype Reaction = Reaction(onView: ViewFactory, scaleType: ScaleType)

  /** Opaque platform handles. */
  datatype Drawable = Drawable(id: nat)
  datatype Typeface = Typeface(id: nat)

  /** Horizontal placement of the popup, relative to the parent view or the screen. */
  datatype PopupGravity = Default | ParentLeft | ParentRight | ScreenLeft | ScreenRight | Center

  /** The exceptions this layer throws. */
  datatype ConfigError =
    | IllegalArgument(message: string)
    | NotImplemented
    | ResourceNotFound(resource: int)
    | IndexOutOfBounds(index: int)

  /**
   * The reaction text provider: the default one that never gives a text, one
   * backed by a string-array resource (`Array<String>::get`), or an
   * application closure.
   */
  datatype TextProvider =
    | NoTextProvider
    | StringArrayProvider(texts: seq<string>)
    | CustomTextProvider(provide: int -> Option<string>)

  /** What the provider gives for `position`; a string array throws outside its bounds. */
  function ProvideText(provider: TextProvider, position: int): (r: Result<Option<string>, ConfigError>)
    ensures provider.NoTextProvider? ==> r == Success(None)
    ensures provider.StringArrayProvider? ==>
      (r.Failure? <==> !(0 <= position < |provider.texts|)) &&
      (r.Failure? ==> r.error == IndexOutOfBounds(position)) &&
      (r.Success? ==> r.value == Some(provider.texts[position]))
  {
    match provider
    case NoTextProvider => Success(None)
    case StringArrayProvider(texts) =>
      if 0 <= position < |texts| then Success(Some(texts[position])) else Failure(IndexOutOfBounds(position))
    case CustomTextProvider(provide) => Success(provide(position))
  }

  /** `Color.WHITE`, 0xFFFFFFFF read as a signed 32-bit `Int`. */
  const White: int := -1

  /** The values the builder looks up in the application's resources. */
  datatype Resources = Resources(
    itemSize: int,                   // R.dimen.reactions_item_size, in pixels
    itemMargin: int,                 // R.dimen.reactions_item_margin, in pixels
    textHorizontalPadding: real,     // R.dimen.reactions_text_horizontal_padding
    textVerticalPadding: real,       // R.dimen.reactions_text_vertical_padding
    textSize: real,                  // R.dimen.reactions_text_size
    textBackground: Drawable,        // R.drawable.reactions_text_background
    stringArrays: map<int, seq<string>>)

  /** The immutable configuration consumed by the popup. */
  datatype ReactionsConfig = ReactionsConfig(
    reactions: seq<Reaction>,
    reactionSize: int,
    horizontalMargin: int,
    verticalMargin: int,
    popupGravity: PopupGravity,
    popupMargin: int,
    popupCornerRadius: real,
    popupElevation: real,
    popupColor: int,
    popupAlphaValue: int,
    upwardPopupMargin: int,
    downwardPopupMargin: int,
    downwardPopupPoint: int,
    reactionTextProvider: TextProvider,
    textBackground: Drawable,
    textColor: int,
    textHorizontalPadding: int,
    textVerticalPadding: int,
    textSize: real,
    typeface: Option<Typeface>,
    scaleFactor: real,
    targetX: Option<real>,
    targetY: Option<real>,
    dismissAnimationEnabled: bool)

  /**
   * The reactions `withReactions(IntArray, ScaleType)` builds: one image
   * closure per resource id, in order, each its own object.
   */
  function ReactionsFromIds(ids: seq<int>, scaleType: ScaleType): (r: seq<Reaction>)
    ensures |r| == |ids|
    ensures forall i :: 0 <= i < |r| ==>
      r[i].scaleType == scaleType && r[i].onView.ImageResourceFactory? &&
      r[i].onView.resource == ids[i] && r[i].onView.scaleType == scaleType
    ensures Distinct(r)
  {
    seq(|ids|, i requires 0 <= i < |ids| => Reaction(ImageResourceFactory(ids[i], scaleType, i), scaleType))
  }

  class ReactionsConfigBuilder {
    /** The context's resources, consulted for defaults. */
    const context: Resources

    var reactions: seq<Reaction>
    var reactionSize: int
    var horizontalMargin: int
    var verticalMargin: int
    var popupGravity: PopupGravity
    var customTypeface: Option<Typeface>
    var popupMargin: int
    var upwardPopupMargin: int
    var downwardPopupMargin: int
    var downwardPopupPoint: int
    var popupCornerRadius: real
    var popupElevation: real
    var popupColor: int
    var popupAlpha: int
    var reactionTextProvider: TextProvider
    var textBackground: Option<Drawable>
    var textColor: int
    var textHorizontalPadding: int
    var textVerticalPadding: int
    var textSize: real
    var scaleFactor: real
    var targetX: Option<real>
    var targetY: Option<real>
    var dismissAnimationEnabled: bool

    /** A fresh builder: sizes from the resources, every margin equal to the item margin. */
    constructor (context: Resources)
      ensures this.context == context
      ensures reactions == [] && popupGravity == Default
      ensures reactionSize == context.itemSize && horizontalMargin == context.itemMargin
      ensures verticalMargin == horizontalMargin && popupMargin == horizontalMargin
      ensures upwardPopupMargin == horizontalMargin && downwardPopupMargin == horizontalMargin
      ensures downwardPopupPoint == 0 && popupAlpha == 230 && dismissAnimationEnabled
      ensures customTypeface == None && popupCornerRadius == 90.0 && popupElevation == 8.0
      ensures popupColor == White && textColor == White
      ensures reactionTextProvider == NoTextProvider && textBackground == None
      ensures textHorizontalPadding == 0 && textVerticalPadding == 0 && textSize == 0.0
      ensures scaleFactor == 2.0 && targetX == None && targetY == None
    {
      this.context := context;
      reactions := [];
      reactionSize := context.itemSize;
      horizontalMargin := context.itemMargin;
      verticalMargin := context.itemMargin;
      popupGravity := Default;
      customTypeface := None;
      popupMargin := context.itemMargin;
      upwardPopupMargin := context.itemMargin;
      downwardPopupMargin := context.itemMargin;
      downwardPopupPoint := 0;
      popupCornerRadius := 90.0;
      popupElevation := 8.0;
      popupColor := White;
      popupAlpha := 230;
      reactionTextProvider := NoTextProvider;
      textBackground := None;
      textColor := White;
      textHorizontalPadding := 0;
      textVerticalPadding := 0;
      textSize := 0.0;
      scaleFactor := 2.0;
      targetX := None;
      targetY := None;
      dismissAnimationEnabled := true;
    }

    /** The `reactionsIds` property getter always throws. */
    function ReactionsIds(): (r: Result<seq<int>, ConfigError>)
      ensures r == Failure(NotImplemented)
    {
      Failure(NotImplemented)
    }

    /** The `reactionsIds` property setter delegates to `WithReactionIds` with the default scale type. */
    method SetReactionsIds(value: seq<int>)
      modifies this`reactions
      ensures reactions == ReactionsFromIds(value, FitCenter)
    {
      var _ := WithReactionIds(value, FitCenter);
    }

    /** The `reactionTexts` property setter delegates to `WithReactionTextsResource`. */
    method SetReactionTexts(resource: int) returns (r: Result<ReactionsConfigBuilder, ConfigError>)
      modifies this`reactionTextProvider
      ensures r.Failure? <==> resource !in context.stringArrays
      ensures r.Failure? ==> r.error == ResourceNotFound(resource) && reactionTextProvider == old(reactionTextProvider)
      ensures r.Success? ==> r.value == this && reactionTextProvider == StringArrayProvider(context.stringArrays[resource])
    {
      r := WithReactionTextsResource(resource);
    }

    method WithReactions(reactions: seq<Reaction>) returns (b: ReactionsConfigBuilder)
      modifies this`reactions
      ensures b == this && this.reactions == reactions
    {
      this.reactions := reactions;
      b := this;
    }

    method WithReactionIds(ids: seq<int>, scaleType: ScaleType) returns (b: ReactionsConfigBuilder)
      modifies this`reactions
      ensures b == this && reactions == ReactionsFromIds(ids, scaleType)
    {
      b := WithReactions(ReactionsFromIds(ids, scaleType));
    }

    method WithReactionTexts(provider: TextProvider) returns (b: ReactionsConfigBuilder)
      modifies this`reactionTextProvider
      ensures b == this && reactionTextProvider == provider
    {
      reactionTextProvider := provider;
      b := this;
    }

    /** Reads the string array at once; a missing resource throws and changes nothing. */
    method WithReactionTextsResource(resource: int) returns (r: Result<ReactionsConfigBuilder, ConfigError>)
      modifies this`reactionTextProvider
      ensures r.Failure? <==> resource !in context.stringArrays
      ensures r.Failure? ==> r.error == ResourceNotFound(resource) && reactionTextProvider == old(reactionTextProvider)
      ensures r.Success? ==> r.value == this && reactionTextProvider == StringArrayProvider(context.stringArrays[resource])
    {
      if resource in context.stringArrays {
        reactionTextProvider := StringArrayProvider(context.stringArrays[resource]);
        r := Success(this);
      } else {
        r := Failure(ResourceNotFound(resource));
      }
    }

    method WithReactionSize(reactionSize: int) returns (b: ReactionsConfigBuilder)
      modifies this`reactionSize
      ensures b == this && this.reactionSize == reactionSize
    {
      this.reactionSize := reactionSize;
      b := this;
    }

    method WithHorizontalMargin(horizontalMargin: int) returns (b: ReactionsConfigBuilder)
      modifies this`horizontalMargin
      ensures b == this && this.horizontalMargin == horizontalMargin
    {
      this.horizontalMargin := horizontalMargin;
      b := this;
    }

    method WithVerticalMargin(verticalMargin: int) returns (b: ReactionsConfigBuilder)
      modifies this`verticalMargin
      ensures b == this && this.verticalMargin == verticalMargin
    {
      this.verticalMargin := verticalMargin;
      b := this;
    }

    method WithPopupGravity(popupGravity: PopupGravity) returns (b: ReactionsConfigBuilder)
      modifies this`popupGravity
      ensures b == this && this.popupGravity == popupGravity
    {
      this.popupGravity := popupGravity;
      b := this;
    }

    method WithPopupMargin(popupMargin: int) returns (b: ReactionsConfigBuilder)
      modifies this`popupMargin
      ensures b == this && this.popupMargin == popupMargin
    {
      this.popupMargin := popupMargin;
      b := this;
    }

    method WithPopupCornerRadius(popupCornerRadius: real) returns (b: ReactionsConfigBuilder)
      modifies this`popupCornerRadius
      ensures b == this && this.popupCornerRadius == popupCornerRadius
    {
      this.popupCornerRadius := popupCornerRadius;
      b := this;
    }

    method WithPopupColor(popupColor: int) returns (b: ReactionsConfigBuilder)
      modifies this`popupColor
      ensures b == this && this.popupColor == popupColor
    {
      this.popupColor := popupColor;
      b := this;
    }

    method WithPopupAlpha(popupAlpha: int) returns (b: ReactionsConfigBuilder)
      modifies this`popupAlpha
      ensures b == this && this.popupAlpha == popupAlpha
    {
      this.popupAlpha := popupAlpha;
      b := this;
    }

    method WithUpwardPopupMargin(value: int) returns (b: ReactionsConfigBuilder)
      modifies this`upwardPopupMargin
      ensures b == this && upwardPopupMargin == value
    {
      upwardPopupMargin := value;
      b := this;
    }

    method WithDownwardPopupMargin(value: int) returns (b: ReactionsConfigBuilder)
      modifies this`downwardPopupMargin
      ensures b == this && downwardPopupMargin == value
    {
      downwardPopupMargin := value;
      b := this;
    }

    method WithDownwardPopupPoint(value: int) returns (b: ReactionsConfigBuilder)
      modifies this`downwardPopupPoint
      ensures b == this && downwardPopupPoint == value
    {
      downwardPopupPoint := value;
      b := this;
    }

    method WithTextBackground(textBackground: Drawable) returns (b: ReactionsConfigBuilder)
      modifies this`textBackground
      ensures b == this && this.textBackground == Some(textBackground)
    {
      this.textBackground := Some(textBackground);
      b := this;
    }

    method WithTextColor(textColor: int) returns (b: ReactionsConfigBuilder)
      modifies this`textColor
      ensures b == this && this.textColor == textColor
    {
      this.textColor := textColor;
      b := this;
    }

    method WithTextHorizontalPadding(textHorizontalPadding: int) returns (b: ReactionsConfigBuilder)
      modifies this`textHorizontalPadding
      ensures b == this && this.textHorizontalPadding == textHorizontalPadding
    {
      this.textHorizontalPadding := textHorizontalPadding;
      b := this;
    }

    method WithTextVerticalPadding(textVerticalPadding: int) returns (b: ReactionsConfigBuilder)
      modifies this`textVerticalPadding
      ensures b == this && this.textVerticalPadding == textVerticalPadding
    {
      this.textVerticalPadding := textVerticalPadding;
      b := this;
    }

    method WithTextSize(textSize: real) returns (b: ReactionsConfigBuilder)
      modifies this`textSize
      ensures b == this && this.textSize == textSize
    {
      this.textSize := textSize;
      b := this;
    }

    /** Note the field name: the typeface is kept in `customTypeface`. */
    method WithTypeface(typeface: Option<Typeface>) returns (b: ReactionsConfigBuilder)
      modifies this`customTypeface
      ensures b == this && customTypeface == typeface
    {
      customTypeface := typeface;
      b := this;
    }

    /**
     * The configuration: an empty reaction list throws; otherwise the values
     * are copied, with a zero text padding or text size and a missing text
     * background replaced by the resource defaults.
     */
    function Build(): (r: Result<ReactionsConfig, ConfigError>)
      reads this
      ensures r.Failure? <==> reactions == []
      ensures r.Failure? ==> r.error == IllegalArgument("Empty reactions")
      ensures r.Success? ==> r.value.reactions == reactions && |r.value.reactions| > 0
    {
      if reactions == [] then Failure(IllegalArgument("Empty reactions"))
      else Success(ReactionsConfig(
        reactions := reactions,
        reactionSize := reactionSize,
        horizontalMargin := horizontalMargin,
        verticalMargin := verticalMargin,
        popupGravity := popupGravity,
        popupMargin := popupMargin,
        popupCornerRadius := popupCornerRadius,
        popupElevation := popupElevation,
        popupColor := popupColor,
        popupAlphaValue := popupAlpha,
        upwardPopupMargin := upwardPopupMargin,
        downwardPopupMargin := downwardPopupMargin,
        downwardPopupPoint := downwardPopupPoint,
        reactionTextProvider := reactionTextProvider,
        textBackground := textBackground.GetOr(context.textBackground),
        textColor := textColor,
        textHorizontalPadding :=
          if textHorizontalPadding != 0 then textHorizontalPadding else RoundToInt(context.textHorizontalPadding),
        textVerticalPadding :=
          if textVerticalPadding != 0 then textVerticalPadding else RoundToInt(context.textVerticalPadding),
        textSize := if textSize != 0.0 then textSize else context.textSize,
        typeface := customTypeface,
        scaleFactor := scaleFactor,
        targetX := targetX,
        targetY := targetY,
        dismissAnimationEnabled := dismissAnimationEnabled))
    }

    /** Every plain setting reaches the built configuration unchanged. */
    lemma BuildCopiesSettings()
      requires reactions != []
      ensures Build().Success?
      ensures var c := Build().value;
        && c.popupGravity == popupGravity && c.popupMargin == popupMargin
        && c.upwardPopupMargin == upwardPopupMargin && c.downwardPopupMargin == downwardPopupMargin
        && c.downwardPopupPoint == downwardPopupPoint && c.reactionSize == reactionSize
        && c.horizontalMargin == horizontalMargin && c.verticalMargin == verticalMargin
        && c.popupColor == popupColor && c.popupAlphaValue == popupAlpha
        && c.scaleFactor == scaleFactor && c.dismissAnimationEnabled == dismissAnimationEnabled
        && c.popupCornerRadius == popupCornerRadius && c.popupElevation == popupElevation
        && c.textColor == textColor && c.typeface == customTypeface
        && c.targetX == targetX && c.targetY == targetY
        && c.reactionTextProvider == reactionTextProvider
    {
    }

    /**
     * Zero means "use the default": a zero text padding becomes the resource
     * dimension rounded to the nearest pixel, any other value is kept; a
     * missing text background becomes the library's drawable.
     */
    lemma BuildTextDefaults()
      requires reactions != []
      ensures Build().Success?
      ensures var c := Build().value;
        && (textHorizontalPadding != 0 ==> c.textHorizontalPadding == textHorizontalPadding)
        && (textHorizontalPadding == 0 ==>
              c.textHorizontalPadding as real - 0.5 <= context.textHorizontalPadding < c.textHorizontalPadding as real + 0.5)
        && (textVerticalPadding != 0 ==> c.textVerticalPadding == textVerticalPadding)
        && (textVerticalPadding == 0 ==>
              c.textVerticalPadding as real - 0.5 <= context.textVerticalPadding < c.textVerticalPadding as real + 0.5)
        && c.textSize == (if textSize != 0.0 then textSize else context.textSize)
        && c.textBackground == (if textBackground.Some? then textBackground.value else context.textBackground)
    {
    }
  }

  /** The default provider gives no label for any position. */
  lemma NoTextForAnyPosition(position: int)
    ensures ProvideText(NoTextProvider, position) == Success(None)
  {
  }

  /** Setting the horizontal margin after construction leaves the other margins at their defaults. */
  method HorizontalMarginIsIndependent(context: Resources, margin: int) returns (b: ReactionsConfigBuilder)
    ensures b.horizontalMargin == margin
    ensures b.verticalMargin == context.itemMargin && b.popupMargin == context.itemMargin
    ensures b.upwardPopupMargin == context.itemMargin && b.downwardPopupMargin == context.itemMargin
  {
    b := new ReactionsConfigBuilder(context);
    b := b.WithHorizontalMargin(margin);
  }
}
