/** The text constants the bot shares between its packages (utils/constants.go). */
module Constants {
  const TopStories := "Top stories"
  const ArticleCType := "article"
  const GetStartedMsg := "Hi, let's get you started"
  const GreetingTextMsg := "Welcome to News Bot {{user_first_name}}. I'll send you top stories every day, or you can ask me about a topic you want to learn more about."
  const PostBackGetStarted := "Get Started"
  const PostBackGetSummary := "Summary"
  const PostBackShare := "Share"
  const ActionNewsSearch := "news.search"
  const ActionNewsSearchNext := "news.search.next"
  const ActionNewsSearchPrevious := "news.search.previous"
  const ActionNewsSearchRepeat := "news.search.repeat"
  const ActionStop := "stop"
  const ActionReset := "reset"
  const ActionTopics := "topics.lists"
  const ActionSubscribe := "subscribe"
  const ActionManageAlerts := "manage.alerts"
  const SubscribeText := "I can message you every day with top stories around the country or about a topic you're interested in."
  const ResetMsg := "Hi, let's start over again."
  const NoSubscriptionText := "You currently don't have any subscriptions"
}
