/** Sessions of the console program replayed through the objects, with the
    outcomes the rules fix for them. Each method builds its own client and
    accounts and calls only the methods of SistemaBancario. */
module Cenarios {
  import opened Regras
  import opened SistemaBancario

  /** A new checking account with the default limits: a withdrawal of exactly
      R$ 500,00 passes the per-withdrawal limit and one of R$ 500,01 does not,
      even with enough balance. */
  method LimitePorSaque() returns (deposito: Status, saque1: Status, saque2: Status, saque3: Status, saldo: Valor)
    ensures deposito == Sucesso
    ensures saque1 == Sucesso
    ensures saque2 == Falha(LimiteExcedido)
    ensures saque3 == Sucesso
    ensures saldo == 0
  {
    var cliente := new Cliente("Ana", "01-01-1990", "12345678900", "Rua A, 1 - Centro - Natal/RN");
    var conta := Conta.NovaConta(cliente, 1, CORRENTE_PADRAO);
    cliente.AdicionarConta(conta);
    deposito := cliente.RealizarTransacao(conta, Transacao(Deposito, 100000), "01-01-2025 10:00:00");
    saque1 := cliente.RealizarTransacao(conta, Transacao(Saque, 50000), "01-01-2025 10:01:00");
    saque2 := cliente.RealizarTransacao(conta, Transacao(Saque, 50001), "01-01-2025 10:02:00");
    saque3 := cliente.RealizarTransacao(conta, Transacao(Saque, 50000), "01-01-2025 10:03:00");
    saldo := conta.saldo;
  }

  /** Four withdrawals of R$ 100,00 in a row, each within the limit and the
      balance: the first three pass and the fourth hits the maximum number of
      withdrawals. */
  method QuatroSaques() returns (s1: Status, s2: Status, s3: Status, s4: Status, registros: nat)
    ensures s1 == Sucesso && s2 == Sucesso && s3 == Sucesso
    ensures s4 == Falha(SaquesExcedidos)
    ensures registros == 4
  {
    var cliente := new Cliente("Ana", "01-01-1990", "12345678900", "Rua A, 1 - Centro - Natal/RN");
    var conta := Conta.NovaConta(cliente, 1, CORRENTE_PADRAO);
    cliente.AdicionarConta(conta);
    var d := cliente.RealizarTransacao(conta, Transacao(Deposito, 100000), "d0");
    ghost var h0 := conta.historico.transacoes;
    assert |Saques(h0)| == 0;
    s1 := cliente.RealizarTransacao(conta, Transacao(Saque, 10000), "d1");
    SaquesConcat(h0, [Registro(Saque, 10000, "d1")]);
    ghost var h1 := conta.historico.transacoes;
    s2 := cliente.RealizarTransacao(conta, Transacao(Saque, 10000), "d2");
    SaquesConcat(h1, [Registro(Saque, 10000, "d2")]);
    ghost var h2 := conta.historico.transacoes;
    s3 := cliente.RealizarTransacao(conta, Transacao(Saque, 10000), "d3");
    SaquesConcat(h2, [Registro(Saque, 10000, "d3")]);
    s4 := cliente.RealizarTransacao(conta, Transacao(Saque, 10000), "d4");
    registros := |conta.historico.transacoes|;
  }

  /** A client cannot move money in another client's account: the attempt is
      refused and the account keeps its balance and history. */
  method ContaDeOutroCliente() returns (r: Status, saldo: Valor, registros: nat)
    ensures r == Falha(ContaAlheia)
    ensures saldo == 100000 && registros == 1
  {
    var ana := new Cliente("Ana", "01-01-1990", "12345678900", "Rua A, 1 - Centro - Natal/RN");
    var bia := new Cliente("Bia", "02-02-1992", "98765432100", "Rua B, 2 - Centro - Natal/RN");
    var conta := Conta.NovaConta(ana, 1, CORRENTE_PADRAO);
    ana.AdicionarConta(conta);
    var d := ana.RealizarTransacao(conta, Transacao(Deposito, 100000), "d0");
    r := bia.RealizarTransacao(conta, Transacao(Saque, 10000), "d1");
    saldo := conta.saldo;
    registros := |conta.historico.transacoes|;
  }

  /** Account numbers are handed out in sequence starting at 1, and a CPF
      with no client leaves the number where it was. */
  method NumeracaoDeContas() returns (n1: int, n2: int, n3: int, contas: nat, deAna: nat)
    ensures n1 == 2 && n2 == 2 && n3 == 3
    ensures contas == 2 && deAna == 2
  {
    var cadastro := new Cadastro();
    var ana := new Cliente("Ana", "01-01-1990", "12345678900", "Rua A, 1 - Centro - Natal/RN");
    cadastro.clientes := cadastro.clientes + [ana];
    assert PrimeiroCom("12345678900", cadastro.clientes, 0);
    n1 := cadastro.CriarConta(1, "12345678900");
    n2 := cadastro.CriarConta(n1, "00000000000");
    n3 := cadastro.CriarConta(n2, "12345678900");
    contas := |cadastro.contas|;
    deAna := |ana.contas|;
  }
}
