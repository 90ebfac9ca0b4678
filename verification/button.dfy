/** The shared button component: pressing it calls `onPress` unless it is
    disabled or loading. The handler is modelled as the event it raises. */
module Button {
  import opened Wrappers

  datatype ButtonProps<A> = ButtonProps(title: string, onPress: A, disabled: bool, loading: bool)

  /** A button with the default `disabled = false` and `loading = false`. */
  function Plain<A>(title: string, onPress: A): (b: ButtonProps<A>)
    ensures b.title == title && b.onPress == onPress
    ensures !b.disabled && !b.loading
  {
    ButtonProps(title, onPress, false, false)
  }

  /** What a tap on the button raises: its handler's event, or nothing when
      the underlying touchable is disabled. */
  function Press<A>(b: ButtonProps<A>): (r: Option<A>)
    ensures r.Some? <==> !b.disabled && !b.loading
    ensures r.Some? ==> r.value == b.onPress
  {
    if b.disabled || b.loading then None else Some(b.onPress)
  }
}
