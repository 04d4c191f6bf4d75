/** What a handler does on screen once it returns: `Alert.alert(title,
    message)`, nothing beyond the inline field errors it set, or a
    navigation call. */
module Navigation {
  datatype Outcome =
    | Alert(title: string, message: string)
    | FieldErrorsOnly
    | NavigateToLogin   // navigation.navigate('Login')
    | ReplaceWithHome   // navigation.replace('Home')
}
